/** The key-value server object of src/raftCore/kvServer.cpp: a skip list, a table and wait channels. */
module KvServerObject {
  import opened KvReplay
  import opened SkipList
  import Ack = KvAck

  /** A LockQueue of commands. */
  class Channel {
    var items: seq<Op>

    constructor ()
      ensures items == []
    {
      items := [];
    }
  }

  datatype Wait = Got(op: Op) | Late

  /** The text of a snapshot: the dump of the skip list, and the table. */
  datatype Image = Blank | Image(keys: seq<string>, values: seq<string>, lastRequestId: map<string, int>)

  /** A call of Raft's Snapshot. */
  datatype Taken = NotTaken | Taken(index: int, image: Image)

  ghost predicate Shows(image: Image, kv: Kv) {
    && image.Image? && |image.keys| == |image.values| && image.lastRequestId == kv.last
    && (forall p :: 0 <= p < |image.keys| ==> image.keys[p] in kv.store && image.values[p] == kv.store[image.keys[p]])
    && forall k :: k in kv.store ==> k in image.keys
  }

  /** The state machine after a snapshot was read into it. */
  ghost function Restored(kv: Kv, image: Image): Kv {
    if image.Blank? then kv else Kv(Loaded(kv.store, image.keys), image.lastRequestId)
  }

  /** A snapshot has every key of the store with its value, no other key, and the table. */
  lemma ShownExactly(image: Image, kv: Kv)
    requires Shows(image, kv)
    ensures forall k :: k in kv.store <==> k in image.keys
    ensures forall p :: 0 <= p < |image.keys| && p < |image.values| ==>
              image.keys[p] in kv.store && image.values[p] == kv.store[image.keys[p]]
    ensures |image.values| == |image.keys| && image.lastRequestId == kv.last
  {
  }

  /** A server that reads another's snapshot takes over its table, and its store exactly if it holds no other
      key, and every key has the same value at both or, where it is new, is its own value. */
  lemma SnapshotRestores(kv: Kv, other: Kv, image: Image)
    requires Shows(image, kv)
    ensures Restored(other, image).last == kv.last && Restored(other, Blank) == other
    ensures Restored(other, image) == kv
            <==> && (forall k :: k in other.store ==> k in kv.store)
                 && forall k :: k in kv.store ==> kv.store[k] == if k in other.store then other.store[k] else k
  {
    LoadedAre(other.store, image.keys);
    var w := Loaded(other.store, image.keys);
    if (forall k :: k in other.store ==> k in kv.store)
       && forall k :: k in kv.store ==> kv.store[k] == if k in other.store then other.store[k] else k {
      forall k ensures k in w <==> k in kv.store {}
      assert w == kv.store;
    }
  }

  class KvServer {
    const list: List                        // m_skipList
    const maxRaftState: int
    var lastRequestId: map<string, int>
    var waitApplyCh: map<int, Channel>
    var snapshotIndex: int                  // m_lastSnapShotRaftLogIndex

    ghost predicate Valid()
      reads this, list, Arrays(list.chain)
    {
      && list.Valid() && this !in Arrays(list.chain)
      && (forall i :: i in waitApplyCh ==> waitApplyCh[i] !in Arrays(list.chain))
      && forall i, j :: i in waitApplyCh && j in waitApplyCh && waitApplyCh[i] == waitApplyCh[j] ==> i == j
    }

    /** The state machine that the object holds. */
    ghost function View(): Kv
      reads this, list
    {
      Kv(list.model, lastRequestId)
    }

    constructor (maxRaftState: int)
      ensures Valid() && View() == EMPTY && waitApplyCh == map[] && snapshotIndex == 0
      ensures fresh(list) && fresh(Arrays(list.chain)) && this.maxRaftState == maxRaftState
    {
      this.maxRaftState := maxRaftState;
      list := new List(6);
      lastRequestId, waitApplyCh, snapshotIndex := map[], map[], 0;
    }

    method IfRequestDuplicate(clientId: string, requestId: int) returns (duplicate: bool)
      requires Valid()
      ensures Valid()
      ensures duplicate <==> IsDuplicate(View(), clientId, requestId)
      ensures duplicate <==> clientId in lastRequestId && requestId <= lastRequestId[clientId]
    {
      hide List.Valid, Arrays;
      if clientId !in lastRequestId {
        return false;
      }
      duplicate := requestId <= lastRequestId[clientId];
    }

    method ExecutePutOpOnKVDB(op: Op, heads: nat)
      requires Valid()
      modifies this`lastRequestId, list, Arrays(list.chain)
      ensures Valid() && fresh(Arrays(list.chain) - old(Arrays(list.chain)))
      ensures View() == Execute(old(View()), op)
    {
      hide List.Valid, Arrays;
      list.InsertSetElement(op.key, op.value, heads);
      lastRequestId := lastRequestId[op.clientId := op.requestId];
    }

    method ExecuteAppendOpOnKVDB(op: Op, heads: nat)
      requires Valid()
      modifies this`lastRequestId, list, Arrays(list.chain)
      ensures Valid() && fresh(Arrays(list.chain) - old(Arrays(list.chain)))
      ensures View() == Execute(old(View()), op)
    {
      hide List.Valid, Arrays;
      list.InsertSetElement(op.key, op.value, heads);
      lastRequestId := lastRequestId[op.clientId := op.requestId];
    }

    method ExecuteGetOpOnKVDB(op: Op) returns (value: string, exist: bool)
      requires Valid()
      modifies this`lastRequestId
      ensures Valid() && View() == Serve(old(View()), op.clientId, op.requestId)
      ensures exist <==> op.key in View().store
      ensures value == if exist then View().store[op.key] else ""
    {
      hide List.Valid, Arrays;
      exist, value := list.SearchElement(op.key);
      lastRequestId := lastRequestId[op.clientId := op.requestId];
    }

    method SendMessageToWaitChan(op: Op, index: int) returns (sent: bool)
      requires Valid()
      modifies if index in waitApplyCh then {waitApplyCh[index]} else {}
      ensures sent <==> index in waitApplyCh
      ensures sent ==> waitApplyCh[index].items == old(waitApplyCh[index].items) + [op]
      ensures Valid() && View() == old(View())
    {
      hide List.Valid, Arrays;
      if index !in waitApplyCh {
        return false;
      }
      var channel := waitApplyCh[index];
      channel.items := channel.items + [op];
      sent := true;
    }

    method MakeSnapShot() returns (image: Image)
      requires Valid()
      ensures Shows(image, View())
    {
      var keys, values := list.DumpFile();
      image := Image(keys, values, lastRequestId);
    }

    /** The apply loop handles a snapshot: the table is replaced, and keys that are not there yet come in. */
    method GetSnapShotFromRaft(index: int, image: Image, heads: seq<nat>)
      requires Valid() && (image.Image? ==> |heads| == |image.keys|)
      modifies this`lastRequestId, this`snapshotIndex, list, Arrays(list.chain)
      ensures Valid() && fresh(Arrays(list.chain) - old(Arrays(list.chain)))
      ensures View() == Restored(old(View()), image) && snapshotIndex == index
    {
      hide List.Valid, Arrays;
      if image.Image? {
        list.LoadFile(image.keys, heads);
        lastRequestId := image.lastRequestId;
      }
      snapshotIndex := index;
    }

    /** The state machine takes a command, unless it is a duplicate. */
    method ExecuteOnce(op: Op, heads: nat)
      requires Valid()
      modifies this`lastRequestId, list, Arrays(list.chain)
      ensures Valid() && fresh(Arrays(list.chain) - old(Arrays(list.chain)))
      ensures View() == Deliver(old(View()), op)
    {
      hide List.Valid;
      var duplicate := IfRequestDuplicate(op.clientId, op.requestId);
      if !duplicate {
        if op.operation == "Put" {
          ExecutePutOpOnKVDB(op, heads);
        }
        if op.operation == "Append" {
          ExecuteAppendOpOnKVDB(op, heads);
        }
      }
    }

    /** The apply loop handles a command: nothing for one that a snapshot covers; else the state machine
        takes it, Raft is given a snapshot of the result if its state has outgrown a tenth of the limit, and
        the waiter of the command, if there is one, is told. */
    method GetCommandFromRaft(index: int, op: Op, heads: nat, raftStateSize: int) returns (taken: Taken)
      requires Valid()
      modifies this`lastRequestId, list, Arrays(list.chain), if index in waitApplyCh then {waitApplyCh[index]} else {}
      ensures Valid() && fresh(Arrays(list.chain) - old(Arrays(list.chain)))
      ensures View() == if index <= snapshotIndex then old(View()) else Deliver(old(View()), op)
      ensures var ahead := op.clientId !in old(lastRequestId) || old(lastRequestId)[op.clientId] < op.requestId;
              if index > snapshotIndex && (op.operation == "Put" || op.operation == "Append") && ahead
              then list.model == old(list.model)[op.key := op.value]
                   && lastRequestId == old(lastRequestId)[op.clientId := op.requestId]
              else list.model == old(list.model) && lastRequestId == old(lastRequestId)
      ensures taken.Taken? <==> index > snapshotIndex && maxRaftState != -1 && 10 * raftStateSize > maxRaftState
      ensures taken.Taken? ==> taken.index == index && Shows(taken.image, View())
      ensures index in waitApplyCh ==>
                waitApplyCh[index].items == old(waitApplyCh[index].items) + if index <= snapshotIndex then [] else [op]
    {
      hide List.Valid, Shows;
      DeliverExactly(View(), op);
      taken := NotTaken;
      if index <= snapshotIndex {
        return;
      }
      ExecuteOnce(op, heads);
      if maxRaftState != -1 && 10 * raftStateSize > maxRaftState {
        var image := MakeSnapShot();
        taken := Taken(index, image);
      }
      var _ := SendMessageToWaitChan(op, index);
    }

    // The request handlers, between their waits.

    method FindChannel(index: int) returns (channel: Channel)
      requires Valid()
      modifies this`waitApplyCh
      ensures Valid() && View() == old(View())
      ensures waitApplyCh == old(waitApplyCh)[index := channel]
      ensures if index in old(waitApplyCh) then channel == old(waitApplyCh)[index] else fresh(channel) && channel.items == []
    {
      hide Shaped, Linked;
      if index !in waitApplyCh {
        channel := new Channel();
        waitApplyCh := waitApplyCh[index := channel];
      }
      channel := waitApplyCh[index];
    }

    function StageOf(w: Wait): Ack.Stage {
      match w
      case Got(op) => Ack.Popped(op)
      case Late => Ack.TimedOut
    }

    method AnswerPutAppend(op: Op, index: int, wait: Wait) returns (ok: bool)
      requires Valid()
      ensures ok <==> Ack.PutOk(View(), Ack.Handler(false, op, index, StageOf(wait)))
      ensures ok <==> match wait
                      case Late => op.clientId in lastRequestId && op.requestId <= lastRequestId[op.clientId]
                      case Got(x) => x.clientId == op.clientId && x.requestId == op.requestId
    {
      hide List.Valid, Arrays;
      match wait
      case Late =>
        ok := IfRequestDuplicate(op.clientId, op.requestId);
      case Got(raftCommitOp) =>
        ok := raftCommitOp.clientId == op.clientId && raftCommitOp.requestId == op.requestId;
    }

    /** Get after its timeout: is the request known, and does Raft still lead? */
    method LookUp(op: Op, isLeader: bool) returns (known: bool)
      requires Valid()
      ensures known <==> Ack.Known(View(), op, isLeader)
      ensures known <==> op.clientId in lastRequestId && op.requestId <= lastRequestId[op.clientId] && isLeader
    {
      hide List.Valid, Arrays;
      var duplicate := IfRequestDuplicate(op.clientId, op.requestId);
      known := duplicate && isLeader;
    }

    /** Get answers with the value, with ErrNoKey, or with ErrWrongLeader, which leaves everything alone. */
    method AnswerGet(op: Op, index: int, stage: Ack.Stage) returns (served: bool, exist: bool, value: string)
      requires Valid() && (stage.Popped? || stage.Serving?)
      modifies this`lastRequestId
      ensures Valid()
      ensures served <==> Ack.Serves(Ack.Handler(true, op, index, stage))
      ensures served <==> stage.Serving? || (stage.got.clientId == op.clientId && stage.got.requestId == op.requestId)
      ensures list.model == old(list.model)
      ensures lastRequestId == if served then old(lastRequestId)[op.clientId := op.requestId] else old(lastRequestId)
      ensures View() == if served then Serve(old(View()), op.clientId, op.requestId) else old(View())
      ensures served ==> (exist <==> op.key in View().store) && value == if exist then View().store[op.key] else ""
    {
      hide List.Valid, Arrays;
      exist, value := false, "";
      served := stage.Serving? || (stage.got.clientId == op.clientId && stage.got.requestId == op.requestId);
      if served {
        value, exist := ExecuteGetOpOnKVDB(op);
      }
    }

    method DropChannel(index: int)
      requires Valid()
      modifies this`waitApplyCh
      ensures Valid() && View() == old(View()) && waitApplyCh == old(waitApplyCh) - {index}
    {
      hide List.Valid, Arrays;
      waitApplyCh := waitApplyCh - {index};
    }
  }
}
