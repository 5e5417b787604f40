/**
 * The request handlers of src/raftCore/kvServer.cpp beside the apply loop. Each step is what one thread does
 * while it holds the server's mutex, or one operation on a wait channel; the steps of the handlers and of
 * the loop come in any order.
 */
module KvAck {
  import opened KvReplay

  /** Where a handler stands after Start accepted its command at a log index. */
  datatype Stage =
    | Started                     // before it looks up its channel
    | Waiting(channel: nat)
    | Popped(got: Op)
    | TimedOut
    | Serving                     // a Get that found its request in the table, before it executes
    | Replied(ok: bool)           // before it deletes the channel
    | Finished(ok: bool)

  datatype Handler = Handler(get: bool, op: Op, index: int, stage: Stage)

  /** Where the apply loop stands with the message it took. */
  datatype Loop =
    | Idle
    | Taken(index: int, op: Op)
    | Checked(index: int, op: Op, duplicate: bool)
    | Sending(index: int, op: Op)

  datatype Server = Server(
    kv: Kv,
    handlers: seq<Handler>,
    waitApplyCh: map<int, nat>,   // log index -> channel
    channels: seq<seq<Op>>,       // what each channel ever made holds
    loop: Loop,
    snapshotIndex: int)           // m_lastSnapShotRaftLogIndex

  datatype Action =
    | Begin(get: bool, op: Op, index: int)
    | Register(h: nat)
    | Pop(h: nat)
    | TimeOut(h: nat)
    | AnswerPut(h: nat)
    | LookUp(h: nat, isLeader: bool)
    | AnswerGet(h: nat)
    | CleanUp(h: nat)
    | Take(index: int, op: Op)
    | Check
    | Run
    | Send
    | Restore(kv: Kv, index: int)

  predicate Matches(op: Op, got: Op) {
    got.clientId == op.clientId && got.requestId == op.requestId
  }

  /** The reply of PutAppend is OK. */
  predicate PutOk(kv: Kv, h: Handler) {
    match h.stage
    case Popped(got) => Matches(h.op, got)
    case TimedOut => IsDuplicate(kv, h.op.clientId, h.op.requestId)
    case _ => false
  }

  /** After its timeout Get looks the request up, and asks Raft whether it still leads. */
  predicate Known(kv: Kv, op: Op, isLeader: bool) {
    IsDuplicate(kv, op.clientId, op.requestId) && isLeader
  }

  /** Get executes the read, and notes the request in the table. */
  predicate Serves(h: Handler) {
    match h.stage
    case Popped(got) => Matches(h.op, got)
    case Serving => true
    case _ => false
  }

  ghost predicate Enabled(s: Server, a: Action) {
    match a
    case Begin(get, op, _) => get ==> !Writes(op)
    case Register(h) => h < |s.handlers| && s.handlers[h].stage.Started?
    case Pop(h) =>
      && h < |s.handlers| && s.handlers[h].stage.Waiting?
      && s.handlers[h].stage.channel < |s.channels| && s.channels[s.handlers[h].stage.channel] != []
    case TimeOut(h) => h < |s.handlers| && s.handlers[h].stage.Waiting?
    case AnswerPut(h) =>
      && h < |s.handlers| && !s.handlers[h].get
      && (s.handlers[h].stage.Popped? || s.handlers[h].stage.TimedOut?)
    case LookUp(h, _) => h < |s.handlers| && s.handlers[h].get && s.handlers[h].stage.TimedOut?
    case AnswerGet(h) =>
      && h < |s.handlers| && s.handlers[h].get
      && (s.handlers[h].stage.Popped? || s.handlers[h].stage.Serving?)
    case CleanUp(h) => h < |s.handlers| && s.handlers[h].stage.Replied?
    case Take(_, _) => s.loop.Idle?
    case Check => s.loop.Taken?
    case Run => s.loop.Checked?
    case Send => s.loop.Sending?
    case Restore(_, _) => s.loop.Idle?
  }

  function At(s: Server, h: nat, stage: Stage): Server
    requires h < |s.handlers|
  {
    s.(handlers := s.handlers[h := s.handlers[h].(stage := stage)])
  }

  /** The handler finds the channel of its index, or makes one. */
  function Registered(s: Server, h: nat): Server
    requires h < |s.handlers|
  {
    var index := s.handlers[h].index;
    if index in s.waitApplyCh then At(s, h, Waiting(s.waitApplyCh[index]))
    else
      At(s, h, Waiting(|s.channels|)).(waitApplyCh := s.waitApplyCh[index := |s.channels|], channels := s.channels + [[]])
  }

  function Step(s: Server, a: Action): Server
    requires Enabled(s, a)
  {
    match a
    case Begin(get, op, index) => s.(handlers := s.handlers + [Handler(get, op, index, Started)])
    case Register(h) => Registered(s, h)
    case Pop(h) =>
      var c := s.handlers[h].stage.channel;
      At(s, h, Popped(s.channels[c][0])).(channels := s.channels[c := s.channels[c][1..]])
    case TimeOut(h) => At(s, h, TimedOut)
    case AnswerPut(h) => At(s, h, Replied(PutOk(s.kv, s.handlers[h])))
    case LookUp(h, isLeader) => At(s, h, if Known(s.kv, s.handlers[h].op, isLeader) then Serving else Replied(false))
    case AnswerGet(h) =>
      var x := s.handlers[h];
      if Serves(x)
      then At(s, h, Replied(true)).(kv := Serve(s.kv, x.op.clientId, x.op.requestId))
      else At(s, h, Replied(false))
    case CleanUp(h) =>
      At(s, h, Finished(s.handlers[h].stage.ok)).(waitApplyCh := s.waitApplyCh - {s.handlers[h].index})
    case Take(index, op) => if index <= s.snapshotIndex then s else s.(loop := Taken(index, op))
    case Check =>
      var op := s.loop.op;
      s.(loop := Checked(s.loop.index, op, IsDuplicate(s.kv, op.clientId, op.requestId)))
    case Run =>
      var op := s.loop.op;
      s.(loop := Sending(s.loop.index, op),
         kv := if !s.loop.duplicate && Writes(op) then Execute(s.kv, op) else s.kv)
    case Send =>
      s.(loop := Idle,
         channels := if s.loop.index in s.waitApplyCh && s.waitApplyCh[s.loop.index] < |s.channels|
                     then var c := s.waitApplyCh[s.loop.index]; s.channels[c := s.channels[c] + [s.loop.op]]
                     else s.channels)
    case Restore(kv, index) => s.(kv := kv, snapshotIndex := index)
  }

  const START := Server(EMPTY, [], map[], [], Idle, 0)

  /** A run from s to t. */
  ghost predicate Leads(run: seq<Server>, acts: seq<Action>, s: Server, t: Server) {
    && |run| == |acts| + 1 && run[0] == s && run[|acts|] == t
    && forall k :: 0 <= k < |acts| ==> Enabled(run[k], acts[k]) && run[k + 1] == Step(run[k], acts[k])
  }

  ghost predicate IsRun(run: seq<Server>, acts: seq<Action>) {
    |run| == |acts| + 1 && Leads(run, acts, START, run[|acts|])
  }

  // What the steps do, told by the table.

  /** A late Get goes on to be served if and only if the table holds an entry of its client of at least its id, and
      the node still leads; a look-up changes nothing but the handler. */
  lemma LookUpExactly(s: Server, h: nat, isLeader: bool)
    requires Enabled(s, LookUp(h, isLeader))
    ensures var t, op := Step(s, LookUp(h, isLeader)), s.handlers[h].op;
            && t == s.(handlers := t.handlers) && |t.handlers| == |s.handlers|
            && (forall g :: 0 <= g < |s.handlers| && g != h ==> t.handlers[g] == s.handlers[g])
            && t.handlers[h] == s.handlers[h].(stage := t.handlers[h].stage)
            && (t.handlers[h].stage == Serving <==>
                  op.clientId in s.kv.last && op.requestId <= s.kv.last[op.clientId] && isLeader)
            && (t.handlers[h].stage != Serving ==> t.handlers[h].stage == Replied(false))
  {
  }

  /** A Get is served if and only if its look-up succeeded, or the message that came has its client and its id; then
      its client's entry is its id, whatever it was. */
  lemma ServedExactly(s: Server, h: nat)
    requires Enabled(s, AnswerGet(h))
    ensures var t, x := Step(s, AnswerGet(h)), s.handlers[h];
            var served := x.stage.Serving? || (x.stage.got.clientId == x.op.clientId && x.stage.got.requestId == x.op.requestId);
            && h < |t.handlers| && t.handlers[h].stage == Replied(served)
            && t.kv.store == s.kv.store
            && t.kv.last == if served then s.kv.last[x.op.clientId := x.op.requestId] else s.kv.last
  {
  }

  /** A Put or Append is answered OK if and only if the message that came has its client and its id, or, after the
      timeout, the table holds an entry of its client of at least its id; the answer changes nothing else. */
  lemma PutExactly(s: Server, h: nat)
    requires Enabled(s, AnswerPut(h))
    ensures var t, x := Step(s, AnswerPut(h)), s.handlers[h];
            && h < |t.handlers| && t == s.(handlers := t.handlers)
            && t.handlers[h].stage
               == Replied(if x.stage.TimedOut? then x.op.clientId in s.kv.last && x.op.requestId <= s.kv.last[x.op.clientId]
                          else x.stage.got.clientId == x.op.clientId && x.stage.got.requestId == x.op.requestId)
  {
  }

  /** A command that a snapshot covers is passed over. */
  lemma CoveredExactly(s: Server, index: int, op: Op)
    requires s.loop.Idle? && index <= s.snapshotIndex
    ensures Enabled(s, Take(index, op)) && Step(s, Take(index, op)) == s
  {
  }

  /** The loop, from a command that no snapshot covers to its message, with nothing in between: store and table are
      as if it was delivered. */
  lemma LoopExactly(s: Server, index: int, op: Op)
    requires s.loop.Idle? && index > s.snapshotIndex
    ensures Enabled(s, Take(index, op))
    ensures var a := Step(s, Take(index, op));
            Enabled(a, Check) && Enabled(Step(a, Check), Run) && Enabled(Step(Step(a, Check), Run), Send)
    ensures var t := Step(Step(Step(Step(s, Take(index, op)), Check), Run), Send);
            t.kv == Deliver(s.kv, op) && t.loop == Idle && t.handlers == s.handlers
  {
  }

  /** In every run, a Get that is about to be served after its timeout was known to the table, and to a leader, when it
      looked. */
  lemma {:induction false} LateGetWasKnown(run: seq<Server>, acts: seq<Action>, k: nat, h: nat) returns (j: nat)
    requires IsRun(run, acts) && k < |run| && h < |run[k].handlers| && run[k].handlers[h].stage == Serving
    ensures j < k && j < |acts| && acts[j] == LookUp(h, true) && h < |run[j].handlers| && run[k].handlers[h].op == run[j].handlers[h].op
    ensures var op := run[k].handlers[h].op;
            op.clientId in run[j].kv.last && op.requestId <= run[j].kv.last[op.clientId]
  {
    assert k > 0;
    hide Enabled, Step;
    ServingFrom(run[k - 1], acts[k - 1], h);
    if run[k - 1].handlers[h].stage == Serving {
      j := LateGetWasKnown(run, acts, k - 1, h);
    } else {
      j := k - 1;
    }
  }

  lemma ServingFrom(s: Server, a: Action, h: nat)
    requires Enabled(s, a) && h < |Step(s, a).handlers| && Step(s, a).handlers[h].stage == Serving
    ensures h < |s.handlers| && Step(s, a).handlers[h].op == s.handlers[h].op
    ensures var op := s.handlers[h].op;
            || s.handlers[h].stage == Serving
            || (a == LookUp(h, true) && op.clientId in s.kv.last && op.requestId <= s.kv.last[op.clientId])
  {
  }

  /** A command that went through the loop is in the table if it writes. */
  predicate Noted(kv: Kv, op: Op) {
    Writes(op) ==> IsDuplicate(kv, op.clientId, op.requestId)
  }

  /** The handlers that wait at a channel. */
  function WaitersAt(s: Server, c: nat): set<nat> {
    set h: nat | h < |s.handlers| && s.handlers[h].stage == Waiting(c)
  }

  /** A Put or Append handler with the ids of the command. */
  predicate Fits(h: Handler, x: Op) {
    !h.get && Matches(h.op, x)
  }

  /** A handler that looks its channel up may find this one. */
  ghost predicate Offered(s: Server, c: nat) {
    exists i :: i in s.waitApplyCh && s.waitApplyCh[i] == c
  }

  /** The message at place p of channel c can still come to a handler that it answers: the channel is on offer, or
      enough handlers wait there, such a one among them. */
  ghost predicate Awaited(s: Server, c: nat, p: nat, x: Op) {
    || Offered(s, c)
    || (p < |WaitersAt(s, c)| && exists h: nat :: h in WaitersAt(s, c) && Fits(s.handlers[h], x))
  }

  ghost predicate Queued(s: Server, c: nat, p: nat, x: Op) {
    c < |s.channels| && p < |s.channels[c]| && s.channels[c][p] == x && Awaited(s, c, p, x)
  }

  /** The loop is done with the command, and a Put or Append may still be answered OK because of it. */
  ghost predicate InFlight(s: Server, x: Op) {
    || (exists c: nat, p: nat :: Queued(s, c, p, x))
    || (exists h :: 0 <= h < |s.handlers| && s.handlers[h].stage == Popped(x) && Fits(s.handlers[h], x))
    || (s.loop.Sending? && s.loop.op == x)
    || (s.loop.Checked? && s.loop.duplicate && s.loop.op == x)
  }

  /** All channels in use have been made. */
  ghost predicate Formed(s: Server) {
    && (forall i :: i in s.waitApplyCh ==> s.waitApplyCh[i] < |s.channels|)
    && forall h :: 0 <= h < |s.handlers| && s.handlers[h].stage.Waiting? ==> s.handlers[h].stage.channel < |s.channels|
  }

  lemma FormedStep(s: Server, a: Action)
    requires Formed(s) && Enabled(s, a)
    ensures Formed(Step(s, a))
  {
  }

  /** The command is noted; and one of the same client that the loop is about to run has no smaller id. */
  predicate Kept(s: Server, x: Op) {
    && Noted(s.kv, x)
    && (s.loop.Checked? && !s.loop.duplicate && Writes(s.loop.op) && Writes(x) ==>
          x.clientId == s.loop.op.clientId ==> x.requestId <= s.loop.op.requestId)
  }

  /** Every command in flight is noted. */
  ghost predicate Inv(s: Server) {
    forall x :: InFlight(s, x) ==> Kept(s, x)
  }

  /** A Get that is served writes no smaller id over that of a Put or Append in flight, and a snapshot that is
      restored knows every command in flight. Both can be checked before the step. */
  ghost predicate Orderly(s: Server, a: Action)
    requires Enabled(s, a)
  {
    match a
    case AnswerGet(h) =>
      var op := s.handlers[h].op;
      Serves(s.handlers[h]) ==>
        forall x :: InFlight(s, x) && Writes(x) && x.clientId == op.clientId ==> x.requestId <= op.requestId
    case Restore(kv, _) => forall x :: InFlight(s, x) ==> Noted(kv, x)
    case _ => true
  }

  ghost predicate OrderlyRun(run: seq<Server>, acts: seq<Action>) {
    IsRun(run, acts) && forall k :: 0 <= k < |acts| ==> Orderly(run[k], acts[k])
  }

  lemma SubsetSize<T>(a: set<T>, b: set<T>)
    requires a <= b
    ensures |a| <= |b|
  {
    assert b == a + (b - a);
  }

  lemma Another<T>(a: set<T>, x: T) returns (y: T)
    requires x in a && |a| > 1
    ensures y in a && y != x
  {
    assert |a - {x}| == |a| - 1;
    y :| y in a - {x};
  }

  lemma WaitersLess(s: Server, a: Action, c: nat)
    requires Enabled(s, a) && !a.Register?
    ensures WaitersAt(Step(s, a), c) <= WaitersAt(s, c)
    ensures a.Pop? && s.handlers[a.h].stage == Waiting(c) ==> WaitersAt(Step(s, a), c) == WaitersAt(s, c) - {a.h}
  {
  }

  lemma HandlersSame(s: Server, a: Action, h: nat)
    requires Enabled(s, a) && h < |s.handlers|
    ensures h < |Step(s, a).handlers|
    ensures Step(s, a).handlers[h].get == s.handlers[h].get && Step(s, a).handlers[h].op == s.handlers[h].op
  {
  }

  /** A message that can be awaited after the step could be before, at its place then. */
  lemma AwaitedBefore(s: Server, a: Action, c: nat, p: nat, x: Op, q: nat)
    requires Enabled(s, a) && Awaited(Step(s, a), c, p, x) && c < |s.channels|
    requires q == if a.Pop? && s.handlers[a.h].stage == Waiting(c) then p + 1 else p
    ensures Awaited(s, c, q, x)
  {
    var t := Step(s, a);
    if Offered(t, c) {
      var i :| i in t.waitApplyCh && t.waitApplyCh[i] == c;
      assert i in s.waitApplyCh && s.waitApplyCh[i] == c;
    } else if a.Register? {
      var i := s.handlers[a.h].index;
      assert i in t.waitApplyCh && t.waitApplyCh[i] != c;
      assert WaitersAt(t, c) == WaitersAt(s, c);
    } else {
      WaitersLess(s, a, c);
      SubsetSize(WaitersAt(t, c), WaitersAt(s, c));
      var h: nat :| h in WaitersAt(t, c) && Fits(t.handlers[h], x);
      HandlersSame(s, a, h);
    }
  }

  /** Only the loop's command comes into flight. */
  lemma FlightFrom(s: Server, a: Action, x: Op)
    requires Formed(s) && Enabled(s, a) && InFlight(Step(s, a), x)
    ensures InFlight(s, x)
            || ((a.Run? || (a.Check? && IsDuplicate(s.kv, x.clientId, x.requestId))) && x == s.loop.op)
  {
    var t := Step(s, a);
    if c: nat, p: nat :| Queued(t, c, p, x) {
      QueuedFrom(s, a, c, p, x);
    } else if h :| 0 <= h < |t.handlers| && t.handlers[h].stage == Popped(x) && Fits(t.handlers[h], x) {
      PoppedFrom(s, a, h, x);
    } else {
      hide Queued;
    }
  }

  lemma QueuedFrom(s: Server, a: Action, c: nat, p: nat, x: Op)
    requires Formed(s) && Enabled(s, a) && Queued(Step(s, a), c, p, x)
    ensures InFlight(s, x)
  {
    var t := Step(s, a);
    if a.Send? && c < |s.channels| && p == |s.channels[c]| {
      assert x == s.loop.op;
    } else {
      var q := if a.Pop? && s.handlers[a.h].stage == Waiting(c) then p + 1 else p;
      assert c < |s.channels| && q < |s.channels[c]| && s.channels[c][q] == x;
      AwaitedBefore(s, a, c, p, x, q);
      assert Queued(s, c, q, x);
    }
  }

  lemma PoppedFrom(s: Server, a: Action, h: nat, x: Op)
    requires Enabled(s, a) && h < |Step(s, a).handlers|
    requires Step(s, a).handlers[h].stage == Popped(x) && Fits(Step(s, a).handlers[h], x)
    ensures InFlight(s, x)
  {
    if a.Pop? && a.h == h {
      var c := s.handlers[h].stage.channel;
      assert h in WaitersAt(s, c) && Fits(s.handlers[h], x);
      assert |WaitersAt(s, c)| > 0;
      assert Queued(s, c, 0, x);
    } else {
      assert h < |s.handlers| && s.handlers[h].stage == Popped(x) && Fits(s.handlers[h], x);
    }
  }

  lemma FlightKept(s: Server, a: Action, x: Op)
    requires Inv(s) && Enabled(s, a) && Orderly(s, a) && InFlight(s, x)
    ensures Kept(Step(s, a), x)
  {
    assert Kept(s, x);
    hide InFlight;
  }

  lemma LoopNoted(s: Server, a: Action)
    requires Inv(s) && Enabled(s, a) && (a.Run? || (a.Check? && IsDuplicate(s.kv, s.loop.op.clientId, s.loop.op.requestId)))
    ensures Kept(Step(s, a), s.loop.op)
  {
    if a.Run? && s.loop.duplicate { assert InFlight(s, s.loop.op); }
  }

  lemma OrderlyKeeps(s: Server, a: Action)
    requires Formed(s) && Inv(s) && Enabled(s, a) && Orderly(s, a)
    ensures Inv(Step(s, a))
  {
    hide InFlight, Kept, Orderly, Step, Enabled;
    forall x | InFlight(Step(s, a), x) ensures Kept(Step(s, a), x) {
      FlightFrom(s, a, x);
      if InFlight(s, x) { FlightKept(s, a, x); } else { LoopNoted(s, a); }
    }
  }

  /** What is in flight stays so when a Get is answered, or a snapshot restored. */
  lemma StillInFlight(s: Server, a: Action, x: Op)
    requires Enabled(s, a) && InFlight(s, x) && (a.Restore? || a.AnswerGet?)
    ensures InFlight(Step(s, a), x)
  {
    var t := Step(s, a);
    if c: nat, p: nat :| Queued(s, c, p, x) {
      assert WaitersAt(t, c) == WaitersAt(s, c);
      if !Offered(s, c) {
        var h: nat :| h in WaitersAt(s, c) && Fits(s.handlers[h], x);
        assert h in WaitersAt(t, c) && Fits(t.handlers[h], x);
      }
      assert Queued(t, c, p, x);
    } else if h :| 0 <= h < |s.handlers| && s.handlers[h].stage == Popped(x) && Fits(s.handlers[h], x) {
      assert t.handlers[h].stage == Popped(x) && Fits(t.handlers[h], x);
    }
  }

  lemma DisorderBreaks(s: Server, a: Action)
    requires Inv(s) && Enabled(s, a) && !Orderly(s, a)
    ensures !Inv(Step(s, a))
  {
    hide InFlight;
    if a.Restore? {
      var x :| InFlight(s, x) && !Noted(a.kv, x);
      StillInFlight(s, a, x);
      assert !Kept(Step(s, a), x);
    } else {
      var op := s.handlers[a.h].op;
      var x :| InFlight(s, x) && Writes(x) && x.clientId == op.clientId && x.requestId > op.requestId;
      StillInFlight(s, a, x);
      assert !Kept(Step(s, a), x);
    }
  }

  /** A step of a handler or of the loop keeps all commands in flight noted if and only if it is orderly. */
  lemma KeepsExactlyOrderly(s: Server, a: Action)
    requires Formed(s) && Inv(s) && Enabled(s, a)
    ensures Inv(Step(s, a)) <==> Orderly(s, a)
  {
    hide Inv, Orderly, Step, Enabled;
    if Orderly(s, a) { OrderlyKeeps(s, a); } else { DisorderBreaks(s, a); }
  }

  /** A Get served with no smaller id than its client's entry is orderly, and so is restoring a table in which
      no client's entry is behind. */
  lemma ForwardIsOrderly(s: Server, a: Action)
    requires Inv(s) && Enabled(s, a)
    requires a.AnswerGet? ==> NotSmaller(s.kv, Served(s.handlers[a.h].op.clientId, s.handlers[a.h].op.requestId))
    requires a.Restore? ==> forall c :: c in s.kv.last ==> c in a.kv.last && s.kv.last[c] <= a.kv.last[c]
    ensures Orderly(s, a)
  {
    hide InFlight;
    forall x | InFlight(s, x) ensures Noted(s.kv, x) { assert Kept(s, x); }
  }

  lemma StartInv()
    ensures Formed(START) && Inv(START)
  {
  }

  lemma {:induction false} RunInv(run: seq<Server>, acts: seq<Action>, k: nat)
    requires OrderlyRun(run, acts) && k < |run|
    ensures Formed(run[k]) && Inv(run[k])
  {
    hide Step, Enabled, Inv, Orderly, Formed;
    if k == 0 {
      StartInv();
    } else {
      RunInv(run, acts, k - 1);
      FormedStep(run[k - 1], acts[k - 1]);
      KeepsExactlyOrderly(run[k - 1], acts[k - 1]);
    }
  }

  lemma {:induction false} RunFormed(run: seq<Server>, acts: seq<Action>, k: nat)
    requires IsRun(run, acts) && k < |run|
    ensures Formed(run[k])
  {
    hide Step, Enabled, Formed;
    if k == 0 {
      StartInv();
    } else {
      RunFormed(run, acts, k - 1);
      FormedStep(run[k - 1], acts[k - 1]);
    }
  }

  /** All commands in flight are noted at every moment of a run if and only if every step of it is orderly. */
  lemma NotedExactlyOrderly(run: seq<Server>, acts: seq<Action>)
    requires IsRun(run, acts)
    ensures OrderlyRun(run, acts) <==> forall k :: 0 <= k < |run| ==> Inv(run[k])
  {
    hide Step, Enabled, Inv, Orderly;
    if OrderlyRun(run, acts) {
      forall k | 0 <= k < |run| ensures Inv(run[k]) { RunInv(run, acts, k); }
    } else {
      var k :| 0 <= k < |acts| && !Orderly(run[k], acts[k]);
      if Inv(run[k]) {
        RunFormed(run, acts, k);
        KeepsExactlyOrderly(run[k], acts[k]);
        assert !Inv(run[k + 1]);
      }
    }
  }

  // The invariant is exactly what the answers need.

  /** If the step answers a Put or Append because of a writing command that came to it, the request is noted. */
  ghost predicate AnswerNoted(s: Server, a: Action) {
    a.AnswerPut? && a.h < |s.handlers| ==>
      var x := s.handlers[a.h];
      x.stage.Popped? && Matches(x.op, x.stage.got) && Writes(x.stage.got) ==>
        IsDuplicate(s.kv, x.op.clientId, x.op.requestId)
  }

  /** An orderly run from s on. */
  ghost predicate Continues(run: seq<Server>, acts: seq<Action>, s: Server) {
    && |run| == |acts| + 1 && run[0] == s
    && forall k :: 0 <= k < |acts| ==>
         Enabled(run[k], acts[k]) && Orderly(run[k], acts[k]) && run[k + 1] == Step(run[k], acts[k])
  }

  ghost predicate AllNoted(run: seq<Server>, acts: seq<Action>) {
    |run| == |acts| + 1 && forall k :: 0 <= k < |acts| ==> AnswerNoted(run[k], acts[k])
  }

  /** Whatever orderly steps follow, no answer to come is OK without being noted. */
  ghost predicate Sound(s: Server) {
    forall run, acts :: Continues(run, acts, s) ==> AllNoted(run, acts)
  }

  lemma InvAnswers(s: Server, a: Action)
    requires Inv(s) && Enabled(s, a)
    ensures AnswerNoted(s, a)
  {
    if a.AnswerPut? {
      var x := s.handlers[a.h];
      if x.stage.Popped? && Fits(x, x.stage.got) { assert InFlight(s, x.stage.got) && Kept(s, x.stage.got); }
    }
  }

  lemma {:induction false} ContinuesInv(run: seq<Server>, acts: seq<Action>, s: Server, k: nat)
    requires Continues(run, acts, s) && Formed(s) && Inv(s) && k < |run|
    ensures Formed(run[k]) && Inv(run[k])
  {
    hide Step, Enabled, Inv, Orderly, Formed;
    if k > 0 {
      ContinuesInv(run, acts, s, k - 1);
      FormedStep(run[k - 1], acts[k - 1]);
      KeepsExactlyOrderly(run[k - 1], acts[k - 1]);
    }
  }

  /** A continuation that answers OK without a note. */
  ghost predicate Fails(run: seq<Server>, acts: seq<Action>, s: Server) {
    Continues(run, acts, s) && !AllNoted(run, acts)
  }

  lemma OneBefore(s: Server, a: Action, run: seq<Server>, acts: seq<Action>)
    requires Enabled(s, a) && Orderly(s, a) && Fails(run, acts, Step(s, a))
    ensures Fails([s] + run, [a] + acts, s)
  {
    hide Enabled, Orderly, Step, AnswerNoted;
    var r, b := [s] + run, [a] + acts;
    forall k | 0 <= k < |b| ensures Enabled(r[k], b[k]) && Orderly(r[k], b[k]) && r[k + 1] == Step(r[k], b[k]) {
      if k > 0 { assert r[k] == run[k - 1] && b[k] == acts[k - 1] && r[k + 1] == run[k]; }
    }
    var k :| 0 <= k < |acts| && !AnswerNoted(run[k], acts[k]);
    assert !AnswerNoted(r[k + 1], b[k + 1]);
  }

  /** The handler has the message and answers. */
  lemma FailsAnswering(s: Server, h: nat, x: Op) returns (run: seq<Server>, acts: seq<Action>)
    requires h < |s.handlers| && s.handlers[h].stage == Popped(x) && Fits(s.handlers[h], x)
    requires Writes(x) && !Noted(s.kv, x)
    ensures Fails(run, acts, s)
  {
    acts := [AnswerPut(h)];
    run := [s, Step(s, AnswerPut(h))];
    assert !AnswerNoted(run[0], acts[0]);
  }

  /** Enough handlers wait: others take what is before the message. */
  lemma {:induction false} FailsWaiting(s: Server, c: nat, p: nat, h: nat, x: Op)
    returns (run: seq<Server>, acts: seq<Action>)
    requires c < |s.channels| && p < |s.channels[c]| && s.channels[c][p] == x && p < |WaitersAt(s, c)|
    requires h in WaitersAt(s, c) && Fits(s.handlers[h], x) && Writes(x) && !Noted(s.kv, x)
    ensures Fails(run, acts, s)
    decreases p
  {
    var g := h;
    if p > 0 { g := Another(WaitersAt(s, c), h); }
    var t := Step(s, Pop(g));
    if p == 0 {
      run, acts := FailsAnswering(t, h, x);
    } else {
      WaitersLess(s, Pop(g), c);
      run, acts := FailsWaiting(t, c, p - 1, h, x);
    }
    OneBefore(s, Pop(g), run, acts);
    run, acts := [s] + run, [Pop(g)] + acts;
  }

  /** The server after a Put or Append with the ids of x came to the channel of an index. */
  function Joining(s: Server, x: Op, index: int): Server {
    var n := |s.handlers|;
    var t := s.(handlers := s.handlers + [Handler(false, x, index, Started)]);
    Registered(t, n)
  }

  lemma JoiningIs(s: Server, x: Op, index: int)
    requires Formed(s)
    ensures var t, n := Joining(s, x, index), |s.handlers|;
            && Formed(t) && |t.handlers| == n + 1 && Fits(t.handlers[n], x)
            && index in t.waitApplyCh && t.handlers[n].stage == Waiting(t.waitApplyCh[index])
            && t.kv == s.kv && t.loop == s.loop && t.snapshotIndex == s.snapshotIndex
            && |s.channels| <= |t.channels| && (forall c :: 0 <= c < |s.channels| ==> t.channels[c] == s.channels[c])
            && (index in s.waitApplyCh ==> t.waitApplyCh == s.waitApplyCh && t.channels == s.channels)
  {
  }

  lemma OneBeforeJoining(s: Server, x: Op, index: int, run: seq<Server>, acts: seq<Action>)
    returns (r: seq<Server>, b: seq<Action>)
    requires Fails(run, acts, Joining(s, x, index))
    ensures Fails(r, b, s)
  {
    var n := |s.handlers|;
    var begin, register := Begin(false, x, index), Register(n);
    var t := Step(s, begin);
    assert Step(t, register) == Joining(s, x, index);
    hide Step, Fails;
    assert Enabled(s, begin) && Enabled(t, register);
    OneBefore(t, register, run, acts);
    OneBefore(s, begin, [t] + run, [register] + acts);
    r, b := [s] + ([t] + run), [begin] + ([register] + acts);
  }

  /** The channel is on offer: requests with the ids of x come and take what is before it, and then it. */
  lemma {:induction false} FailsOffered(s: Server, c: nat, p: nat, index: int, x: Op)
    returns (run: seq<Server>, acts: seq<Action>)
    requires Formed(s) && c < |s.channels| && p < |s.channels[c]| && s.channels[c][p] == x
    requires index in s.waitApplyCh && s.waitApplyCh[index] == c && Writes(x) && !Noted(s.kv, x)
    ensures Fails(run, acts, s)
    decreases p
  {
    var n := |s.handlers|;
    var t := Joining(s, x, index);
    JoiningIs(s, x, index);
    hide Joining, Fails;
    var u := Step(t, Pop(n));
    if p == 0 {
      run, acts := FailsAnswering(u, n, x);
    } else {
      FormedStep(t, Pop(n));
      run, acts := FailsOffered(u, c, p - 1, index, x);
    }
    OneBefore(t, Pop(n), run, acts);
    run, acts := OneBeforeJoining(s, x, index, [t] + run, [Pop(n)] + acts);
  }

  /** The loop is about to send it: a request comes to its channel first. */
  lemma FailsSending(s: Server, x: Op) returns (run: seq<Server>, acts: seq<Action>)
    requires Formed(s) && s.loop.Sending? && s.loop.op == x && Writes(x) && !Noted(s.kv, x)
    ensures Fails(run, acts, s)
  {
    var index := s.loop.index;
    var t := Joining(s, x, index);
    JoiningIs(s, x, index);
    hide Joining, Fails;
    var c := t.waitApplyCh[index];
    var u := Step(t, Send);
    FormedStep(t, Send);
    run, acts := FailsOffered(u, c, |t.channels[c]|, index, x);
    OneBefore(t, Send, run, acts);
    run, acts := OneBeforeJoining(s, x, index, [t] + run, [Send] + acts);
  }

  /** A command in flight that is not noted makes some answer to come OK without a note. */
  lemma FailsInFlight(s: Server, x: Op) returns (run: seq<Server>, acts: seq<Action>)
    requires Formed(s) && InFlight(s, x) && Writes(x) && !Noted(s.kv, x)
    ensures Fails(run, acts, s)
  {
    hide Fails, Formed;
    if s.loop.Sending? && s.loop.op == x {
      run, acts := FailsSending(s, x);
    } else if s.loop.Checked? && s.loop.duplicate && s.loop.op == x {
      FormedStep(s, Run);
      run, acts := FailsSending(Step(s, Run), x);
      OneBefore(s, Run, run, acts);
      run, acts := [s] + run, [Run] + acts;
    } else if h :| 0 <= h < |s.handlers| && s.handlers[h].stage == Popped(x) && Fits(s.handlers[h], x) {
      run, acts := FailsAnswering(s, h, x);
    } else {
      var c: nat, p: nat :| Queued(s, c, p, x);
      if Offered(s, c) {
        var i :| i in s.waitApplyCh && s.waitApplyCh[i] == c;
        run, acts := FailsOffered(s, c, p, i, x);
      } else {
        var h: nat :| h in WaitersAt(s, c) && Fits(s.handlers[h], x);
        run, acts := FailsWaiting(s, c, p, h, x);
      }
    }
  }

  /** The loop is about to set the table back behind a command in flight. */
  lemma FailsBehind(s: Server, x: Op) returns (run: seq<Server>, acts: seq<Action>)
    requires Formed(s) && InFlight(s, x) && Noted(s.kv, x) && !Kept(s, x)
    ensures Fails(run, acts, s)
  {
    var t := Step(s, Run);
    FormedStep(s, Run);
    if c: nat, p: nat :| Queued(s, c, p, x) {
      assert WaitersAt(t, c) == WaitersAt(s, c);
      assert Queued(t, c, p, x);
    } else if h :| 0 <= h < |s.handlers| && s.handlers[h].stage == Popped(x) && Fits(s.handlers[h], x) {
      assert t.handlers[h].stage == Popped(x) && Fits(t.handlers[h], x);
    }
    run, acts := FailsInFlight(t, x);
    OneBefore(s, Run, run, acts);
    run, acts := [s] + run, [Run] + acts;
  }

  /** Every OK to come, whatever orderly steps follow, is noted if and only if every command in flight is. */
  lemma SoundExactly(s: Server)
    requires Formed(s)
    ensures Sound(s) <==> Inv(s)
  {
    hide Step, Enabled, Orderly, InFlight, Kept, Formed, AnswerNoted;
    if Inv(s) {
      forall run, acts | Continues(run, acts, s) ensures AllNoted(run, acts) {
        forall k | 0 <= k < |acts| ensures AnswerNoted(run[k], acts[k]) {
          ContinuesInv(run, acts, s, k);
          InvAnswers(run[k], acts[k]);
        }
      }
    } else {
      var x :| InFlight(s, x) && !Kept(s, x);
      var run, acts := FailsUnkept(s, x);
    }
  }

  lemma FailsUnkept(s: Server, x: Op) returns (run: seq<Server>, acts: seq<Action>)
    requires Formed(s) && InFlight(s, x) && !Kept(s, x)
    ensures Fails(run, acts, s)
  {
    hide InFlight, Fails;
    if Noted(s.kv, x) { run, acts := FailsBehind(s, x); } else { run, acts := FailsInFlight(s, x); }
  }

  /** A step of a handler or of the loop leaves every OK to come noted if and only if it is orderly. */
  lemma SoundStepExactly(s: Server, a: Action)
    requires Formed(s) && Sound(s) && Enabled(s, a)
    ensures Sound(Step(s, a)) <==> Orderly(s, a)
  {
    hide Sound, Inv, Formed, Orderly, Step, Enabled;
    SoundExactly(s);
    FormedStep(s, a);
    SoundExactly(Step(s, a));
    KeepsExactlyOrderly(s, a);
  }

  /** Acknowledgement soundness: in every orderly run, when a Put or Append is answered OK, by the channel or
      after the timeout, the client's entry is at least the request's id, unless the command that came through
      the channel under that id writes nothing. */
  lemma OkIsNoted(run: seq<Server>, acts: seq<Action>, k: nat)
    requires OrderlyRun(run, acts) && k < |acts| && acts[k].AnswerPut?
    ensures acts[k].h < |run[k].handlers| && acts[k].h < |run[k + 1].handlers|
    ensures var x, y := run[k].handlers[acts[k].h], run[k + 1].handlers[acts[k].h];
            y.stage.Replied? && y.op == x.op
            && (y.stage.ok ==>
                  || IsDuplicate(run[k + 1].kv, x.op.clientId, x.op.requestId)
                  || (x.stage.Popped? && Matches(x.op, x.stage.got) && !Writes(x.stage.got)))
  {
    RunInv(run, acts, k);
    var x := run[k].handlers[acts[k].h];
    if x.stage.Popped? && Fits(x, x.stage.got) { assert InFlight(run[k], x.stage.got) && Kept(run[k], x.stage.got); }
  }

  /** The timeout path needs no order at all: its OK reads the table. */
  lemma LateOkIsNoted(s: Server, h: nat)
    requires Enabled(s, AnswerPut(h)) && s.handlers[h].stage.TimedOut?
    ensures h < |Step(s, AnswerPut(h)).handlers|
    ensures Step(s, AnswerPut(h)).handlers[h].stage == Replied(true) <==>
              IsDuplicate(Step(s, AnswerPut(h)).kv, s.handlers[h].op.clientId, s.handlers[h].op.requestId)
  {
  }

  // Clients that use an id once.

  /** All commands of the run that carry one id of a client write, or none of them does. */
  ghost predicate IdsNameOneKind(acts: seq<Action>, writes: set<(string, int)>) {
    forall k :: 0 <= k < |acts| ==>
      match acts[k]
      case Begin(_, op, _) => Writes(op) <==> (op.clientId, op.requestId) in writes
      case Take(_, op) => Writes(op) <==> (op.clientId, op.requestId) in writes
      case _ => true
  }

  predicate Named(op: Op, writes: set<(string, int)>) {
    Writes(op) <==> (op.clientId, op.requestId) in writes
  }

  ghost predicate AllNamed(s: Server, writes: set<(string, int)>) {
    && (forall c, x :: 0 <= c < |s.channels| && x in s.channels[c] ==> Named(x, writes))
    && (forall h :: 0 <= h < |s.handlers| ==>
          Named(s.handlers[h].op, writes) && (s.handlers[h].stage.Popped? ==> Named(s.handlers[h].stage.got, writes)))
    && (!s.loop.Idle? ==> Named(s.loop.op, writes))
  }

  lemma StepNamed(s: Server, a: Action, writes: set<(string, int)>)
    requires Enabled(s, a) && AllNamed(s, writes) && IdsNameOneKind([a], writes)
    ensures AllNamed(Step(s, a), writes)
  {
    var t := Step(s, a);
    assert [a][0] == a;
    forall c, x | 0 <= c < |t.channels| && x in t.channels[c] ensures Named(x, writes) {
      if c < |s.channels| && x !in s.channels[c] { assert x == s.loop.op; }
    }
    if a.Pop? {
      var q := s.handlers[a.h].stage.channel;
      assert s.channels[q][0] in s.channels[q];
    }
  }

  lemma {:induction false} RunNamed(run: seq<Server>, acts: seq<Action>, writes: set<(string, int)>, k: nat)
    requires IsRun(run, acts) && IdsNameOneKind(acts, writes) && k < |run|
    ensures AllNamed(run[k], writes)
  {
    hide Step, Enabled;
    if k > 0 {
      RunNamed(run, acts, writes, k - 1);
      StepNamed(run[k - 1], acts[k - 1], writes);
    }
  }

  /** In an orderly run, for clients that never use an id for both a Get and a Put or Append, OK always means
      noted. */
  lemma OkIsNotedForClerks(run: seq<Server>, acts: seq<Action>, writes: set<(string, int)>, k: nat)
    requires OrderlyRun(run, acts) && IdsNameOneKind(acts, writes) && k < |acts| && acts[k].AnswerPut?
    ensures acts[k].h < |run[k + 1].handlers|
    ensures var y := run[k + 1].handlers[acts[k].h];
            y.stage == Replied(true) && Writes(y.op) ==> IsDuplicate(run[k + 1].kv, y.op.clientId, y.op.requestId)
  {
    OkIsNoted(run, acts, k);
    RunNamed(run, acts, writes, k);
  }

  // Both conditions are needed.

  lemma Joined(r1: seq<Server>, a1: seq<Action>, s: Server, t: Server, r2: seq<Server>, a2: seq<Action>, u: Server)
    requires Leads(r1, a1, s, t) && Leads(r2, a2, t, u)
    ensures Leads(r1 + r2[1..], a1 + a2, s, u)
  {
    hide Step, Enabled;
    var run, acts := r1 + r2[1..], a1 + a2;
    forall k | 0 <= k < |acts| ensures Enabled(run[k], acts[k]) && run[k + 1] == Step(run[k], acts[k]) {
      if k < |a1| {
        assert run[k] == r1[k] && run[k + 1] == r1[k + 1];
      } else {
        assert run[k] == r2[k - |a1|] && run[k + 1] == r2[k + 1 - |a1|] && acts[k] == a2[k - |a1|];
      }
    }
  }

  /** A handler begins, and waits at a channel of its own. */
  lemma ComesToWait(s: Server, get: bool, op: Op, index: int) returns (run: seq<Server>, acts: seq<Action>)
    requires index !in s.waitApplyCh && (get ==> !Writes(op))
    ensures var c := |s.channels|;
            Leads(run, acts, s, s.(handlers := s.handlers + [Handler(get, op, index, Waiting(c))],
                                   waitApplyCh := s.waitApplyCh[index := c], channels := s.channels + [[]]))
  {
    var h, c := |s.handlers|, |s.channels|;
    var begun := s.(handlers := s.handlers + [Handler(get, op, index, Started)]);
    assert begun.handlers[h := Handler(get, op, index, Waiting(c))] == s.handlers + [Handler(get, op, index, Waiting(c))];
    acts := [Begin(get, op, index), Register(h)];
    run := [s, begun, s.(handlers := s.handlers + [Handler(get, op, index, Waiting(c))],
                         waitApplyCh := s.waitApplyCh[index := c], channels := s.channels + [[]])];
  }

  /** The apply loop takes one command from the channel of Raft to the channel of its index. */
  lemma LoopPasses(s: Server, index: int, op: Op) returns (run: seq<Server>, acts: seq<Action>)
    requires s.loop.Idle? && index > s.snapshotIndex && index in s.waitApplyCh && s.waitApplyCh[index] < |s.channels|
    ensures var c := s.waitApplyCh[index];
            var skip := IsDuplicate(s.kv, op.clientId, op.requestId) || !Writes(op);
            Leads(run, acts, s, s.(kv := if skip then s.kv else Execute(s.kv, op),
                                   channels := s.channels[c := s.channels[c] + [op]]))
  {
    hide Execute, Writes;
    var d := IsDuplicate(s.kv, op.clientId, op.requestId);
    hide IsDuplicate;
    var c := s.waitApplyCh[index];
    var kv := if d || !Writes(op) then s.kv else Execute(s.kv, op);
    acts := [Take(index, op), Check, Run, Send];
    run := [s, s.(loop := Taken(index, op)), s.(loop := Checked(index, op, d)), s.(loop := Sending(index, op), kv := kv),
            s.(kv := kv, channels := s.channels[c := s.channels[c] + [op]])];
  }

  /** A server with one Put handler, its channel made, at these stages. */
  function OneHandler(put: Op, index: int, stage: Stage, queue: seq<Op>, loop: Loop): Server {
    Server(EMPTY, [Handler(false, put, index, stage)], map[index := 0], [queue], loop, 0)
  }

  lemma PutAnswered(put: Op, get: Op, index: int) returns (run: seq<Server>, acts: seq<Action>)
    requires Matches(put, get)
    ensures Leads(run, acts, OneHandler(put, index, Waiting(0), [get], Idle),
                  OneHandler(put, index, Replied(true), [], Idle))
  {
    assert [get][1..] == [];
    acts := [Pop(0), AnswerPut(0)];
    run := [OneHandler(put, index, Waiting(0), [get], Idle), OneHandler(put, index, Popped(get), [], Idle),
            OneHandler(put, index, Replied(true), [], Idle)];
  }

  /** Whenever a command that writes nothing goes out under the id of a Put or Append, its message through the
      channel can make that be answered OK though nothing was written. */
  lemma OkWithoutWrite(put: Op, get: Op, index: int) returns (run: seq<Server>, acts: seq<Action>, last: Server)
    requires Writes(put) && !Writes(get) && Matches(put, get) && index > 0
    ensures Leads(run, acts, START, last) && last.handlers == [Handler(false, put, index, Replied(true))]
    ensures !IsDuplicate(last.kv, put.clientId, put.requestId)
  {
    last := OneHandler(put, index, Replied(true), [], Idle);
    var w := OneHandler(put, index, Waiting(0), [], Idle);
    var t := OneHandler(put, index, Waiting(0), [get], Idle);
    var r1, a1 := ComesToWait(START, false, put, index);
    assert START.channels + [[]] == [[]] && START.handlers + w.handlers == w.handlers;
    var r2, a2 := LoopPasses(w, index, get);
    assert w.(channels := w.channels[0 := [] + [get]]) == t by { assert [] + [get] == [get]; }
    var r3, a3 := PutAnswered(put, get, index);
    hide Leads;
    Joined(r1, a1, START, w, r2, a2, t);
    Joined(r1 + r2[1..], a1 + a2, START, t, r3, a3, last);
    run, acts := r1 + r2[1..] + r3[1..], a1 + a2 + a3;
  }

  /** A server with a Get handler at log index 1 and a Put handler at index 2, each with its channel. */
  function TwoHandlers(kv: Kv, get: Op, put: Op, g: Stage, p: Stage, q0: seq<Op>, q1: seq<Op>, loop: Loop): Server {
    Server(kv, [Handler(true, get, 1, g), Handler(false, put, 2, p)], map[1 := 0, 2 := 1], [q0, q1], loop, 0)
  }

  /** The Get is served, which sets the table back. */
  lemma GetAnswered(get: Op, put: Op, kv: Kv, late: Kv) returns (run: seq<Server>, acts: seq<Action>)
    requires late == Serve(kv, get.clientId, get.requestId)
    ensures Leads(run, acts, TwoHandlers(kv, get, put, Waiting(0), Waiting(1), [get], [put], Idle),
                  TwoHandlers(late, get, put, Replied(true), Waiting(1), [], [put], Idle))
  {
    hide Serve;
    assert [get][1..] == [];
    acts := [Pop(0), AnswerGet(0)];
    run := [TwoHandlers(kv, get, put, Waiting(0), Waiting(1), [get], [put], Idle),
            TwoHandlers(kv, get, put, Popped(get), Waiting(1), [], [put], Idle),
            TwoHandlers(late, get, put, Replied(true), Waiting(1), [], [put], Idle)];
  }

  /** Then the Put is answered. */
  lemma PutAfterGet(get: Op, put: Op, late: Kv) returns (run: seq<Server>, acts: seq<Action>)
    ensures Leads(run, acts, TwoHandlers(late, get, put, Replied(true), Waiting(1), [], [put], Idle),
                  TwoHandlers(late, get, put, Replied(true), Replied(true), [], [], Idle))
  {
    assert [put][1..] == [];
    acts := [Pop(1), AnswerPut(1)];
    run := [TwoHandlers(late, get, put, Replied(true), Waiting(1), [], [put], Idle),
            TwoHandlers(late, get, put, Replied(true), Popped(put), [], [], Idle),
            TwoHandlers(late, get, put, Replied(true), Replied(true), [], [], Idle)];
  }

  /** The order is needed too: whenever a Get of a client has a smaller id than its Put or Append, a run without
      any other fault answers the Put OK while the table holds the id of the Get. */
  lemma OkBehindTable(get: Op, put: Op) returns (run: seq<Server>, acts: seq<Action>, last: Server)
    requires Writes(put) && !Writes(get) && put.clientId == get.clientId && get.requestId < put.requestId
    ensures Leads(run, acts, START, last)
    ensures last.handlers == [Handler(true, get, 1, Replied(true)), Handler(false, put, 2, Replied(true))]
    ensures !IsDuplicate(last.kv, put.clientId, put.requestId)
  {
    var kv := Execute(EMPTY, put);
    var late := Serve(kv, get.clientId, get.requestId);
    last := TwoHandlers(late, get, put, Replied(true), Replied(true), [], [], Idle);
    var t1 := TwoHandlers(EMPTY, get, put, Waiting(0), Waiting(1), [], [], Idle);
    var t2 := TwoHandlers(EMPTY, get, put, Waiting(0), Waiting(1), [get], [], Idle);
    var t3 := TwoHandlers(kv, get, put, Waiting(0), Waiting(1), [get], [put], Idle);
    var t0 := Server(EMPTY, [Handler(true, get, 1, Waiting(0))], map[1 := 0], [[]], Idle, 0);
    var r, a0 := ComesToWait(START, true, get, 1);
    assert START.channels + [[]] == [[]] && START.handlers + t0.handlers == t0.handlers;
    var q, bs := ComesToWait(t0, false, put, 2);
    assert t0.channels + [[]] == [[], []] && t0.handlers + [t1.handlers[1]] == t1.handlers;
    Joined(r, a0, START, t0, q, bs, t1);
    var r1, a1 := r + q[1..], a0 + bs;
    var r2, a2 := LoopPasses(t1, 1, get);
    assert t1.(channels := t1.channels[0 := [] + [get]]) == t2 by { assert [] + [get] == [get]; }
    var r3, a3 := LoopPasses(t2, 2, put);
    assert t2.(kv := kv, channels := t2.channels[1 := [] + [put]]) == t3 by { assert [] + [put] == [put]; }
    var r4, a4 := GetAnswered(get, put, kv, late);
    var r5, a5 := PutAfterGet(get, put, late);
    var t4 := TwoHandlers(late, get, put, Replied(true), Waiting(1), [], [put], Idle);
    hide Leads;
    Joined(r1, a1, START, t1, r2, a2, t2);
    Joined(r1 + r2[1..], a1 + a2, START, t2, r3, a3, t3);
    Joined(r1 + r2[1..] + r3[1..], a1 + a2 + a3, START, t3, r4, a4, t4);
    Joined(r1 + r2[1..] + r3[1..] + r4[1..], a1 + a2 + a3 + a4, START, t4, r5, a5, last);
    run, acts := r1 + r2[1..] + r3[1..] + r4[1..] + r5[1..], a1 + a2 + a3 + a4 + a5;
  }
}
