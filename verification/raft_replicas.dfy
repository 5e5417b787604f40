/**
 * Raft and the key-value server together: what two nodes hand to their state machines, and the stores and
 * duplicate tables that the apply loops make of it.
 */
module RaftReplicas {
  import opened RaftTypes
  import opened RaftNode
  import opened RaftCluster
  import opened RaftInvariant
  import opened RaftRuns
  import opened RaftApply
  import opened RaftSafety
  import opened RaftSafetyRuns
  import Kv = KvReplay

  ghost predicate OnlyCommands(msgs: seq<ApplyMsg>) {
    forall k :: 0 <= k < |msgs| ==> msgs[k].CommandMsg?
  }

  /** Commands without a gap and without a snapshot are numbered from 1 on. */
  lemma {:induction false} NumberedFromOne(msgs: seq<ApplyMsg>, k: nat)
    requires Contiguous(msgs) && OnlyCommands(msgs) && k <= |msgs|
    ensures Reach(msgs[..k]) == k
    ensures k < |msgs| ==> msgs[k].index == k + 1
  {
    if k > 0 {
      NumberedFromOne(msgs, k - 1);
      assert msgs[..k] == msgs[..k - 1] + [msgs[k - 1]];
      ReachOne(msgs[..k - 1], msgs[k - 1]);
    }
  }

  /** A node that installed no snapshot handed over exactly the commands 1 to lastApplied, in order. */
  lemma StreamIsNumbered(n: nat, run: seq<World>, acts: seq<Action>, a: nat, i: nat)
    requires IsRun(n, run, acts) && a < |run| && i < |run[a].sys.applied| && OnlyCommands(run[a].sys.applied[i])
    ensures i < |run[a].sys.nodes| && |run[a].sys.applied[i]| == run[a].sys.nodes[i].lastApplied
    ensures forall k :: 0 <= k < |run[a].sys.applied[i]| ==> run[a].sys.applied[i][k].index == k + 1
  {
    hide IsRun;
    ApplyStream(n, run, acts, a);
    var msgs := run[a].sys.applied[i];
    assert StreamOk(msgs, run[a].sys.nodes[i]);
    NumberedFromOne(msgs, |msgs|);
    assert msgs[..|msgs|] == msgs;
    forall k | 0 <= k < |msgs| ensures msgs[k].index == k + 1 {
      NumberedFromOne(msgs, k);
    }
  }

  /** In a guarded run, of what two nodes without an installed snapshot have handed over, whenever they did, the
      one is the beginning of the other. */
  lemma StreamsArePrefixes(n: nat, run: seq<World>, acts: seq<Action>, a: nat, b: nat, i: nat, j: nat)
    requires GuardedRun(n, run, acts) && a < |run| && b < |run|
    requires i < |run[a].sys.applied| && j < |run[b].sys.applied|
    requires OnlyCommands(run[a].sys.applied[i]) && OnlyCommands(run[b].sys.applied[j])
    ensures var x, y := run[a].sys.applied[i], run[b].sys.applied[j];
            x <= y || y <= x
  {
    hide IsRun;
    StreamIsNumbered(n, run, acts, a, i);
    StreamIsNumbered(n, run, acts, b, j);
    var x, y := run[a].sys.applied[i], run[b].sys.applied[j];
    forall k | 0 <= k < |x| && k < |y| ensures x[k] == y[k] {
      StateMachineSafety(n, run, acts, a, b, i, j, x[k], y[k]);
    }
  }

  /** What the apply loop does with the messages; `parse` reads an operation from a command. */
  function Applies(parse: Command -> Kv.Op, msgs: seq<ApplyMsg>): seq<Kv.Event>
    requires OnlyCommands(msgs)
  {
    seq(|msgs|, k requires 0 <= k < |msgs| => Kv.Delivered(parse(msgs[k].command)))
  }

  /** Replicas agree: in a guarded run, of two nodes without an installed snapshot, at whatever times, the one that
      has applied less holds the store and the table of clients that the other held when it had applied as much. */
  lemma ReplicasAgree(n: nat, run: seq<World>, acts: seq<Action>, a: nat, b: nat, i: nat, j: nat,
                      parse: Command -> Kv.Op, kv: Kv.Kv)
    requires GuardedRun(n, run, acts) && a < |run| && b < |run|
    requires i < |run[a].sys.applied| && j < |run[b].sys.applied|
    requires OnlyCommands(run[a].sys.applied[i]) && OnlyCommands(run[b].sys.applied[j])
    ensures i < |run[a].sys.nodes| && j < |run[b].sys.nodes|
    ensures var s, t := run[a].sys.nodes[i].lastApplied, run[b].sys.nodes[j].lastApplied;
            var x, y := run[a].sys.applied[i], run[b].sys.applied[j];
            0 <= s && (s <= t ==> t == |y| && Kv.After(kv, Applies(parse, x)) == Kv.After(kv, Applies(parse, y[..s])))
  {
    hide IsRun;
    StreamIsNumbered(n, run, acts, a, i);
    StreamIsNumbered(n, run, acts, b, j);
    StreamsArePrefixes(n, run, acts, a, b, i, j);
    var x, y := run[a].sys.applied[i], run[b].sys.applied[j];
    assert |x| <= |y| ==> x == y[..|x|];
  }

  /** Besides the commands the replicas serve Gets, each on its own. At equal lastApplied their stores agree, if on
      each no Get is served under a smaller id than the table holds and none shadows a later command. */
  lemma ReplicasAgreeDespiteGets(n: nat, run: seq<World>, acts: seq<Action>, a: nat, b: nat, i: nat, j: nat,
                                 parse: Command -> Kv.Op, es: seq<Kv.Event>, fs: seq<Kv.Event>)
    requires GuardedRun(n, run, acts) && a < |run| && b < |run|
    requires i < |run[a].sys.applied| && j < |run[b].sys.applied|
    requires OnlyCommands(run[a].sys.applied[i]) && OnlyCommands(run[b].sys.applied[j])
    requires Kv.Deliveries(es) == Applies(parse, run[a].sys.applied[i])
    requires Kv.Deliveries(fs) == Applies(parse, run[b].sys.applied[j])
    requires Kv.Legal(Kv.EMPTY, es) && Kv.Legal(Kv.EMPTY, fs) && Kv.Unshadowed(es) && Kv.Unshadowed(fs)
    ensures i < |run[a].sys.nodes| && j < |run[b].sys.nodes|
    ensures run[a].sys.nodes[i].lastApplied == run[b].sys.nodes[j].lastApplied ==>
              Kv.After(Kv.EMPTY, es).store == Kv.After(Kv.EMPTY, fs).store
  {
    hide IsRun;
    StreamIsNumbered(n, run, acts, a, i);
    StreamIsNumbered(n, run, acts, b, j);
    StreamsArePrefixes(n, run, acts, a, b, i, j);
    if |run[a].sys.applied[i]| == |run[b].sys.applied[j]| {
      assert run[a].sys.applied[i] == run[b].sys.applied[j];
      Kv.StoresAgree(es, fs);
    }
  }
}
