/**
 * The replicated key-value state machine of src/raftCore/kvServer.cpp as a value: what the apply loop and
 * the Get handler do to the store and to the table of the last request of each client.
 */
module KvReplay {

  datatype Op = Op(operation: string, key: string, value: string, clientId: string, requestId: int)

  datatype Kv = Kv(store: map<string, string>, last: map<string, int>)

  const EMPTY := Kv(map[], map[])

  /** Append sets the value, just as Put does; a Get is not executed by the apply loop. */
  predicate Writes(op: Op) {
    op.operation == "Put" || op.operation == "Append"
  }

  predicate IsDuplicate(kv: Kv, clientId: string, requestId: int) {
    clientId in kv.last && requestId <= kv.last[clientId]
  }

  function Execute(kv: Kv, op: Op): Kv {
    Kv(kv.store[op.key := op.value], kv.last[op.clientId := op.requestId])
  }

  /** The apply loop handles a committed command. */
  function Deliver(kv: Kv, op: Op): Kv {
    if Writes(op) && !IsDuplicate(kv, op.clientId, op.requestId) then Execute(kv, op) else kv
  }

  /** The apply loop: a Put or an Append of which its client has not got as far in the table sets its key to its value
      and its client's entry to its id; any other command, and any duplicate, changes nothing. */
  lemma DeliverExactly(kv: Kv, op: Op)
    ensures var ahead := op.clientId !in kv.last || kv.last[op.clientId] < op.requestId;
            if (op.operation == "Put" || op.operation == "Append") && ahead
            then Deliver(kv, op).store == kv.store[op.key := op.value]
                 && Deliver(kv, op).last == kv.last[op.clientId := op.requestId]
            else Deliver(kv, op) == kv
  {
  }

  /** The Get handler answers a request, and notes it in the table. */
  function Serve(kv: Kv, clientId: string, requestId: int): Kv {
    kv.(last := kv.last[clientId := requestId])
  }

  datatype Event = Delivered(op: Op) | Served(clientId: string, requestId: int)

  function Step(kv: Kv, e: Event): Kv {
    match e
    case Delivered(op) => Deliver(kv, op)
    case Served(c, id) => Serve(kv, c, id)
  }

  function After(kv: Kv, es: seq<Event>): Kv {
    if es == [] then kv else Step(After(kv, es[..|es| - 1]), es[|es| - 1])
  }

  // What hangs on the order in which Gets are served. The handler writes the table whatever it holds.

  /** The Get is served under a smaller id than a Put or Append of its client has. */
  predicate Undercuts(get: Event, write: Event) {
    && get.Served? && write.Delivered? && Writes(write.op)
    && get.clientId == write.op.clientId && get.requestId < write.op.requestId
  }

  /** No Get is served under a smaller id than a Put or Append of its client that was delivered before. */
  ghost predicate ServedInOrder(es: seq<Event>) {
    forall j, k :: 0 <= j < k < |es| ==> !Undercuts(es[k], es[j])
  }

  lemma FrontInOrder(es: seq<Event>)
    requires ServedInOrder(es) && es != []
    ensures ServedInOrder(es[..|es| - 1])
  {
  }

  lemma DeliveredIsDuplicate(kv: Kv, op: Op)
    ensures Writes(op) ==> IsDuplicate(Deliver(kv, op), op.clientId, op.requestId)
  {
  }

  /** What was delivered once changes nothing when it is delivered again. */
  lemma {:induction false} CopyChangesNothing(kv: Kv, es: seq<Event>, op: Op)
    requires ServedInOrder(es) && Delivered(op) in es
    ensures Writes(op) ==> IsDuplicate(After(kv, es), op.clientId, op.requestId)
    ensures Deliver(After(kv, es), op) == After(kv, es)
  {
    var f, last := es[..|es| - 1], es[|es| - 1];
    FrontInOrder(es);
    if last == Delivered(op) {
      DeliveredIsDuplicate(After(kv, f), op);
    } else {
      assert es == f + [last];
      CopyChangesNothing(kv, f, op);
      var j :| 0 <= j < |f| && es[j] == Delivered(op);
      assert !Undercuts(last, es[j]);
    }
  }

  /** `fs` is `es` with copies of commands put in, each anywhere after the command itself. */
  ghost predicate WithCopies(es: seq<Event>, fs: seq<Event>)
    decreases |fs|
  {
    if fs == [] then es == []
    else
      var front, last := fs[..|fs| - 1], fs[|fs| - 1];
      || (es != [] && es[|es| - 1] == last && WithCopies(es[..|es| - 1], front))
      || (last.Delivered? && last in front && WithCopies(es, front))
  }

  lemma {:induction false} CopiesNotNew(es: seq<Event>, fs: seq<Event>, e: Event)
    requires WithCopies(es, fs) && e in fs
    ensures e in es
    decreases |fs|
  {
    var front, last := fs[..|fs| - 1], fs[|fs| - 1];
    assert fs == front + [last];
    if es != [] && es[|es| - 1] == last && WithCopies(es[..|es| - 1], front) {
      if e != last { CopiesNotNew(es[..|es| - 1], front, e); }
    } else {
      CopiesNotNew(es, front, e);
    }
  }

  /** Exactly-once replay: if Gets are served in order, any number of later copies of earlier commands leaves
      store and table unchanged. */
  lemma {:induction false} CopiesAreHarmless(kv: Kv, es: seq<Event>, fs: seq<Event>)
    requires ServedInOrder(es) && WithCopies(es, fs)
    ensures After(kv, fs) == After(kv, es)
    decreases |fs|
  {
    if fs != [] {
      var front, last := fs[..|fs| - 1], fs[|fs| - 1];
      if es != [] && es[|es| - 1] == last && WithCopies(es[..|es| - 1], front) {
        FrontInOrder(es);
        CopiesAreHarmless(kv, es[..|es| - 1], front);
      } else {
        CopiesAreHarmless(kv, es, front);
        CopiesNotNew(es, front, last);
        CopyChangesNothing(kv, es, last.op);
      }
    }
  }

  lemma {:induction false} CopiesOfSelf(es: seq<Event>)
    ensures WithCopies(es, es)
  {
    if es != [] { CopiesOfSelf(es[..|es| - 1]); }
  }

  /** The copies made up to any point of the history change nothing there. */
  ghost predicate Harmless(kv: Kv, es: seq<Event>) {
    forall k, fs :: 0 <= k <= |es| && WithCopies(es[..k], fs) ==> After(kv, fs) == After(kv, es[..k])
  }

  /** A Put or Append copied right after its client's Get was served with a smaller id takes effect again: it
      writes its value over whatever was written since. */
  lemma LateCopyRepeats(kv: Kv, es: seq<Event>, j: nat, k: nat)
    requires j < k < |es| && Undercuts(es[k], es[j])
    ensures WithCopies(es[..k + 1], es[..k + 1] + [es[j]])
    ensures After(kv, es[..k + 1] + [es[j]]) != After(kv, es[..k + 1])
    ensures var op := es[j].op;
            After(kv, es[..k + 1] + [es[j]]).store == After(kv, es[..k + 1]).store[op.key := op.value]
  {
    var p := es[..k + 1];
    CopiesOfSelf(p);
    assert (p + [es[j]])[..k + 1] == p && p[..k] == es[..k] && p[k] == es[k] && p[j] == es[j];
    assert After(kv, p).last[es[k].clientId] == es[k].requestId;
  }

  /** Exactly-once replay holds at every point of a history, for all copies, if and only if Gets are served in
      order. */
  lemma HarmlessExactlyInOrder(kv: Kv, es: seq<Event>)
    ensures Harmless(kv, es) <==> ServedInOrder(es)
  {
    if ServedInOrder(es) {
      forall k, fs | 0 <= k <= |es| && WithCopies(es[..k], fs) ensures After(kv, fs) == After(kv, es[..k]) {
        CopiesAreHarmless(kv, es[..k], fs);
      }
    } else {
      var j, k :| 0 <= j < k < |es| && Undercuts(es[k], es[j]);
      LateCopyRepeats(kv, es, j, k);
    }
  }

  // Which commands take effect, without the table.

  /** The event raises, or may raise, the client's entry in the table. */
  predicate Touches(e: Event, c: string) {
    match e
    case Delivered(op) => Writes(op) && op.clientId == c
    case Served(client, _) => client == c
  }

  function IdOf(e: Event): int {
    match e
    case Delivered(op) => op.requestId
    case Served(_, id) => id
  }

  /** The request id is greater than all that came from its client before. */
  ghost predicate Exceeds(es: seq<Event>, c: string, id: int) {
    forall j :: 0 <= j < |es| && Touches(es[j], c) ==> IdOf(es[j]) < id
  }

  /** A served Get has no smaller id than what the table holds for its client. */
  predicate NotSmaller(kv: Kv, e: Event) {
    e.Served? && e.clientId in kv.last ==> kv.last[e.clientId] <= e.requestId
  }

  /** The table never goes back. */
  ghost predicate Legal(kv: Kv, es: seq<Event>) {
    forall k :: 0 <= k < |es| ==> NotSmaller(After(kv, es[..k]), es[k])
  }

  lemma FrontLegal(kv: Kv, es: seq<Event>)
    requires es != []
    ensures Legal(kv, es) <==> Legal(kv, es[..|es| - 1]) && NotSmaller(After(kv, es[..|es| - 1]), es[|es| - 1])
  {
    hide NotSmaller, After;
    var f := es[..|es| - 1];
    forall k | 0 <= k < |f|
      ensures NotSmaller(After(kv, f[..k]), f[k]) <==> NotSmaller(After(kv, es[..k]), es[k])
    {
      assert f[..k] == es[..k];
    }
  }

  lemma ExceedsOne(f: seq<Event>, e: Event, c: string, id: int)
    ensures Exceeds(f + [e], c, id) <==> Exceeds(f, c, id) && (Touches(e, c) ==> IdOf(e) < id)
  {
    hide Touches, IdOf;
    var es := f + [e];
    forall j | 0 <= j < |f| ensures es[j] == f[j] {}
    assert es[|f|] == e;
  }

  lemma {:induction false} TableIsMaximum(es: seq<Event>, c: string, id: int)
    requires Legal(EMPTY, es)
    ensures IsDuplicate(After(EMPTY, es), c, id) <==> !Exceeds(es, c, id)
  {
    if es != [] {
      var front, last := es[..|es| - 1], es[|es| - 1];
      FrontLegal(EMPTY, es);
      TableIsMaximum(front, c, id);
      assert es == front + [last];
      ExceedsOne(front, last, c, id);
      hide Exceeds, Step, IsDuplicate, Touches, IdOf, Legal;
      if Touches(last, c) {
        TableIsMaximum(front, c, IdOf(last));
        TouchRaises(After(EMPTY, front), last, c, id);
      } else {
        OthersKeep(After(EMPTY, front), last, c, id);
      }
    }
  }

  lemma OthersKeep(kv: Kv, e: Event, c: string, id: int)
    requires !Touches(e, c)
    ensures IsDuplicate(Step(kv, e), c, id) <==> IsDuplicate(kv, c, id)
  {
  }

  lemma TouchRaises(kv: Kv, e: Event, c: string, id: int)
    requires Touches(e, c) && NotSmaller(kv, e)
    ensures IsDuplicate(Step(kv, e), c, id) <==> IsDuplicate(kv, c, id) || id <= IdOf(e)
  {
  }

  /** The Put and Append commands whose id exceeds all that came from their client before, in order. */
  ghost function Effective(es: seq<Event>): seq<Op> {
    if es == [] then []
    else
      var front, last := es[..|es| - 1], es[|es| - 1];
      if last.Delivered? && Writes(last.op) && Exceeds(front, last.op.clientId, last.op.requestId)
      then Effective(front) + [last.op]
      else Effective(front)
  }

  /** The command that one more event makes effective, if any. */
  ghost function New(front: seq<Event>, last: Event): seq<Op> {
    if last.Delivered? && Writes(last.op) && Exceeds(front, last.op.clientId, last.op.requestId) then [last.op] else []
  }

  lemma EffectiveOne(front: seq<Event>, last: Event)
    ensures Effective(front + [last]) == Effective(front) + New(front, last)
  {
    assert (front + [last])[..|front|] == front;
  }

  function Written(ops: seq<Op>): map<string, string> {
    if ops == [] then map[] else Written(ops[..|ops| - 1])[ops[|ops| - 1].key := ops[|ops| - 1].value]
  }

  /** The store is what the effective commands write, in their order. */
  lemma {:induction false} StoreIsEffective(es: seq<Event>)
    requires Legal(EMPTY, es)
    ensures After(EMPTY, es).store == Written(Effective(es))
  {
    if es != [] {
      var front, last := es[..|es| - 1], es[|es| - 1];
      FrontLegal(EMPTY, es);
      StoreIsEffective(front);
      if last.Delivered? && Writes(last.op) {
        TableIsMaximum(front, last.op.clientId, last.op.requestId);
        assert (Effective(front) + [last.op])[..|Effective(front)|] == Effective(front);
      }
    }
  }

  lemma {:induction false} EffectiveCame(es: seq<Event>, op: Op)
    requires op in Effective(es)
    ensures Delivered(op) in es && Writes(op)
  {
    var front := es[..|es| - 1];
    assert es == front + [es[|es| - 1]];
    if op in Effective(front) { EffectiveCame(front, op); }
  }

  /** No command takes effect twice: the effective ids of a client strictly increase. */
  lemma {:induction false} EffectiveOnce(es: seq<Event>, i: nat, j: nat)
    requires i < j < |Effective(es)| && Effective(es)[i].clientId == Effective(es)[j].clientId
    ensures Effective(es)[i].requestId < Effective(es)[j].requestId
  {
    var front := es[..|es| - 1];
    if j < |Effective(front)| {
      EffectiveOnce(front, i, j);
    } else {
      var op := Effective(front)[i];
      EffectiveCame(front, op);
      var k :| 0 <= k < |front| && front[k] == Delivered(op);
      assert Touches(front[k], op.clientId);
    }
  }

  // The part of the client's numbering.

  /** After k events, exactly the ids that do not exceed all earlier ones of their client count as duplicates:
      whatever command comes next takes effect as it should. */
  ghost predicate MaximumAt(es: seq<Event>, k: nat)
    requires k <= |es|
  {
    forall c, id :: IsDuplicate(After(EMPTY, es[..k]), c, id) <==> !Exceeds(es[..k], c, id)
  }

  /** After k events and one Put or Append more, the store is what the effective commands write. */
  ghost predicate EffectiveAt(es: seq<Event>, k: nat)
    requires k <= |es|
  {
    forall op :: Writes(op) ==>
      After(EMPTY, es[..k] + [Delivered(op)]).store == Written(Effective(es[..k] + [Delivered(op)]))
  }

  lemma PrefixLegal(es: seq<Event>, k: nat)
    requires Legal(EMPTY, es) && k <= |es|
    ensures Legal(EMPTY, es[..k])
  {
    forall i | 0 <= i < k ensures NotSmaller(After(EMPTY, es[..k][..i]), es[..k][i]) {
      assert es[..k][..i] == es[..i];
    }
  }

  /** The first Get served with a smaller id makes the server forget the id that the table held. */
  lemma SmallerForgets(es: seq<Event>, k: nat) returns (c: string, id: int)
    requires k < |es| && Legal(EMPTY, es[..k]) && !NotSmaller(After(EMPTY, es[..k]), es[k])
    ensures !IsDuplicate(After(EMPTY, es[..k + 1]), c, id) && !Exceeds(es[..k + 1], c, id)
    ensures After(EMPTY, es[..k + 1]).store == Written(Effective(es[..k + 1]))
  {
    var p, q := es[..k], es[..k + 1];
    assert q[..k] == p && q[k] == es[k];
    c := es[k].clientId;
    id := After(EMPTY, p).last[c];
    TableIsMaximum(p, c, id);
    var j :| 0 <= j < |p| && Touches(p[j], c) && IdOf(p[j]) >= id;
    assert q[j] == p[j];
    StoreIsEffective(p);
  }

  lemma FirstSmaller(es: seq<Event>) returns (k: nat)
    requires !Legal(EMPTY, es)
    ensures k < |es| && Legal(EMPTY, es[..k]) && !NotSmaller(After(EMPTY, es[..k]), es[k])
  {
    assert es != [];
    hide Legal, NotSmaller, After;
    var f := es[..|es| - 1];
    FrontLegal(EMPTY, es);
    if Legal(EMPTY, f) {
      k := |es| - 1;
    } else {
      k := FirstSmaller(f);
      assert f[..k] == es[..k];
    }
  }

  /** A Put of a client under an id writes something new to the store. */
  function NewPut(store: map<string, string>, c: string, id: int): (op: Op)
    ensures Writes(op) && op.clientId == c && op.requestId == id && store[op.key := op.value] != store
  {
    var op := Op("Put", "k", if "k" in store && store["k"] == "a" then "b" else "a", c, id);
    assert store[op.key := op.value]["k"] == op.value;
    op
  }

  /** The table and the store are as they should be at every point of a history, whatever comes next, if and
      only if no Get is served with a smaller id than the table holds. */
  lemma ExactlyLegal(es: seq<Event>)
    ensures Legal(EMPTY, es) <==> forall k :: 0 <= k <= |es| ==> MaximumAt(es, k)
    ensures Legal(EMPTY, es) <==> forall k :: 0 <= k <= |es| ==> EffectiveAt(es, k)
  {
    if Legal(EMPTY, es) {
      forall k | 0 <= k <= |es| ensures MaximumAt(es, k) && EffectiveAt(es, k) {
        PrefixLegal(es, k);
        LegalAt(es, k);
      }
    } else {
      var k := FirstSmaller(es);
      var c, id := SmallerForgets(es, k);
      assert !MaximumAt(es, k + 1);
      NotEffective(es[..k + 1], NewPut(After(EMPTY, es[..k + 1]).store, c, id));
      assert !EffectiveAt(es, k + 1);
    }
  }

  lemma LegalAt(es: seq<Event>, k: nat)
    requires k <= |es| && Legal(EMPTY, es[..k])
    ensures MaximumAt(es, k) && EffectiveAt(es, k)
  {
    forall c, id ensures IsDuplicate(After(EMPTY, es[..k]), c, id) <==> !Exceeds(es[..k], c, id) {
      TableIsMaximum(es[..k], c, id);
    }
    forall op | Writes(op)
      ensures After(EMPTY, es[..k] + [Delivered(op)]).store == Written(Effective(es[..k] + [Delivered(op)]))
    {
      var q := es[..k] + [Delivered(op)];
      assert q[..|q| - 1] == es[..k];
      FrontLegal(EMPTY, q);
      StoreIsEffective(q);
    }
  }

  lemma NotEffective(p: seq<Event>, op: Op)
    requires Writes(op) && !IsDuplicate(After(EMPTY, p), op.clientId, op.requestId)
    requires !Exceeds(p, op.clientId, op.requestId) && After(EMPTY, p).store == Written(Effective(p))
    requires After(EMPTY, p).store[op.key := op.value] != After(EMPTY, p).store
    ensures After(EMPTY, p + [Delivered(op)]).store != Written(Effective(p + [Delivered(op)]))
  {
    assert (p + [Delivered(op)])[..|p|] == p;
  }

  /** The Get handler's write keeps every handled request known exactly if its id is not smaller. */
  lemma ServeKeepsExactly(kv: Kv, c: string, id: int)
    ensures (forall x :: IsDuplicate(kv, c, x) ==> IsDuplicate(Serve(kv, c, id), c, x))
            <==> NotSmaller(kv, Served(c, id))
  {
    if c in kv.last { assert IsDuplicate(kv, c, kv.last[c]); }
  }

  // A Get is served by one replica only.

  /** The history without the Gets: what every replica's apply loop does. */
  function Deliveries(es: seq<Event>): seq<Event> {
    if es == [] then []
    else Deliveries(es[..|es| - 1]) + (if es[|es| - 1].Delivered? then [es[|es| - 1]] else [])
  }

  lemma {:induction false} DeliveriesAre(es: seq<Event>, e: Event)
    ensures e in Deliveries(es) <==> e in es && e.Delivered?
  {
    if es != [] {
      DeliveriesAre(es[..|es| - 1], e);
      assert es == es[..|es| - 1] + [es[|es| - 1]];
    }
  }

  /** No Put or Append that is new among the commands comes after a Get under its id or a greater one. */
  ghost predicate Unshadowed(es: seq<Event>) {
    forall k :: 0 <= k < |es| && es[k].Delivered? && Writes(es[k].op)
                && Exceeds(Deliveries(es[..k]), es[k].op.clientId, es[k].op.requestId) ==>
      Exceeds(es[..k], es[k].op.clientId, es[k].op.requestId)
  }

  lemma FrontUnshadowed(es: seq<Event>)
    requires es != []
    ensures var front, last := es[..|es| - 1], es[|es| - 1];
            Unshadowed(es) <==>
              && Unshadowed(front)
              && (last.Delivered? && Writes(last.op) && Exceeds(Deliveries(front), last.op.clientId, last.op.requestId) ==>
                    Exceeds(front, last.op.clientId, last.op.requestId))
  {
    hide Exceeds;
    var front := es[..|es| - 1];
    forall k | 0 <= k < |front| ensures front[..k] == es[..k] && front[k] == es[k] {}
  }

  lemma ExceedsDeliveries(es: seq<Event>, c: string, id: int)
    requires Exceeds(es, c, id)
    ensures Exceeds(Deliveries(es), c, id)
  {
    var d := Deliveries(es);
    forall j | 0 <= j < |d| && Touches(d[j], c) ensures IdOf(d[j]) < id {
      DeliveriesAre(es, d[j]);
      var i :| 0 <= i < |es| && es[i] == d[j];
    }
  }

  /** The Gets that a replica serves leave the commands that take effect as they are exactly if none shadows a
      later command; else they take some away. */
  lemma {:induction false} GetsShadowExactly(es: seq<Event>)
    ensures |Effective(es)| <= |Effective(Deliveries(es))|
    ensures Effective(es) == Effective(Deliveries(es)) <==> Unshadowed(es)
  {
    if es == [] {
      assert Unshadowed(es);
    } else {
      var front, last := es[..|es| - 1], es[|es| - 1];
      assert es == front + [last];
      FrontUnshadowed(es);
      GetsShadowExactly(front);
      EffectiveOne(front, last);
      EffectiveOne(Deliveries(front), last);
      if last.Delivered? && Writes(last.op) {
        if Exceeds(front, last.op.clientId, last.op.requestId) {
          ExceedsDeliveries(front, last.op.clientId, last.op.requestId);
        }
        hide Exceeds, Unshadowed, Effective;
        OneLonger(Effective(front), Effective(Deliveries(front)), New(front, last), New(Deliveries(front), last), last.op);
      } else {
        hide Exceeds, Unshadowed;
        assert Deliveries(es) == Deliveries(front) || Deliveries(es) == Deliveries(front) + [last];
      }
    }
  }

  lemma OneLonger<T>(a: seq<T>, b: seq<T>, x: seq<T>, y: seq<T>, e: T)
    requires |a| <= |b| && (x == [] || x == [e]) && (y == [] || y == [e]) && (x == [e] ==> y == [e])
    ensures |a + x| <= |b + y| && (a + x == b + y <==> a == b && x == y)
  {
    if a + x == b + y {
      assert |x| == |y|;
      assert a == (a + x)[..|a|] && b == (b + y)[..|b|];
    }
  }

  lemma {:induction false} DeliveriesLegal(es: seq<Event>)
    ensures forall k :: 0 <= k < |Deliveries(es)| ==> Deliveries(es)[k].Delivered?
    ensures Legal(EMPTY, Deliveries(es))
  {
    if es != [] { DeliveriesLegal(es[..|es| - 1]); }
  }

  /** Replicas that serve different Gets between the same commands hold the same store. */
  lemma StoresAgree(es: seq<Event>, fs: seq<Event>)
    requires Deliveries(es) == Deliveries(fs)
    requires Legal(EMPTY, es) && Legal(EMPTY, fs) && Unshadowed(es) && Unshadowed(fs)
    ensures After(EMPTY, es).store == After(EMPTY, fs).store == After(EMPTY, Deliveries(es)).store
  {
    StoreIsEffective(es);
    StoreIsEffective(fs);
    DeliveriesLegal(es);
    StoreIsEffective(Deliveries(es));
    GetsShadowExactly(es);
    GetsShadowExactly(fs);
  }
}
