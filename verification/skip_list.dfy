/**
 * The skip list of src/skipList/include/skipList.h: nodes on the heap with forward arrays that are
 * rewritten in place, and a random level for each inserted node. It behaves as a finite map.
 */
module SkipList {
  import opened SkipListOrder

  /** Distinct nodes, each with an array of its own for the levels that it reaches; the header first. */
  ghost predicate Shaped(c: Chain, maxLevel: nat) {
    && c != [] && c[0].level == maxLevel
    && (forall p :: 0 <= p < |c| ==> c[p].level <= maxLevel && c[p].forward.Length == c[p].level + 1)
    && (forall p, q :: 0 <= p < q < |c| ==> c[p] != c[q] && c[p].forward != c[q].forward)
  }

  ghost function Arrays(c: Chain): set<object> {
    set p | 0 <= p < |c| :: c[p].forward as object
  }

  /** The links on level i. */
  ghost predicate Linked(c: Chain, maxLevel: nat, i: nat)
    requires Shaped(c, maxLevel)
    reads Arrays(c)
  {
    forall p :: 0 <= p < |c| && c[p].level >= i ==> c[p].forward[i] == Link(c, p, i)
  }

  /** The map holds the keys and values of the nodes after the header, and nothing else. */
  ghost predicate Holds(c: Chain, m: map<string, string>) {
    && c != [] && |m| == |c| - 1
    && (forall p :: 1 <= p < |c| ==> c[p].key in m && m[c[p].key] == c[p].value)
    && (forall k :: k in m ==> exists p :: 1 <= p < |c| && c[p].key == k)
  }

  /** The highest level in use. */
  ghost predicate Tight(c: Chain, top: nat) {
    && (forall p :: 1 <= p < |c| ==> c[p].level <= top)
    && (top > 0 ==> exists p :: 1 <= p < |c| && c[p].level == top)
  }

  lemma HoldsInserted(c: Chain, r: nat, n: Node, m: map<string, string>)
    requires Holds(c, m) && 1 <= r <= |c| && n.key !in m
    ensures Holds(Inserted(c, r, n), m[n.key := n.value])
  {
    var d, w := Inserted(c, r, n), m[n.key := n.value];
    forall k | k in w ensures exists p :: 1 <= p < |d| && d[p].key == k {
      if k == n.key {
        assert d[r].key == k;
      } else {
        var p :| 1 <= p < |c| && c[p].key == k;
        assert d[if p < r then p else p + 1] == c[p];
      }
    }
  }

  lemma KeysDiffer(c: Chain, p: nat, q: nat)
    requires Sorted(c) && 1 <= p < |c| && 1 <= q < |c| && p != q
    ensures c[p].key != c[q].key
  {
    LessTotal(c[p].key, c[q].key);
  }

  lemma RemovedAt(c: Chain, r: nat, p: nat)
    requires r < |c| && p < |c| - 1
    ensures |Removed(c, r)| == |c| - 1 && Removed(c, r)[p] == c[if p < r then p else p + 1]
  {
  }

  lemma HoldsRemoved(c: Chain, r: nat, m: map<string, string>)
    requires Holds(c, m) && 1 <= r < |c| && Sorted(c)
    ensures Holds(Removed(c, r), m - {c[r].key})
  {
    hide Sorted, Less, Removed;
    var d, k := Removed(c, r), c[r].key;
    var l := m - {k};
    RemovedAt(c, r, 0);
    assert m.Keys == l.Keys + {k};
    forall p | 1 <= p < |d| ensures d[p].key in l && l[d[p].key] == d[p].value {
      RemovedAt(c, r, p);
      KeysDiffer(c, if p < r then p else p + 1, r);
    }
    forall x | x in l ensures exists p :: 1 <= p < |d| && d[p].key == x {
      var p :| 1 <= p < |c| && c[p].key == x;
      RemovedAt(c, r, if p < r then p else p - 1);
      assert d[if p < r then p else p - 1].key == x;
    }
  }

  lemma InsertedOrder(c: Chain, n: Node, r: nat, p: nat, q: nat)
    requires Sorted(c) && 1 <= r <= |c| && 1 <= p < q <= |c|
    requires p < r ==> Less(c[p].key, n.key)
    requires r <= q - 1 ==> Less(n.key, c[q - 1].key)
    ensures |Inserted(c, r, n)| == |c| + 1 && Less(Inserted(c, r, n)[p].key, Inserted(c, r, n)[q].key)
  {
    hide Less, Inserted;
    InsertedAt(c, r, n, p);
    InsertedAt(c, r, n, q);
  }

  lemma SortedInserted(c: Chain, n: Node)
    requires Sorted(c) && c != [] && forall p :: 1 <= p < |c| ==> c[p].key != n.key
    ensures Sorted(Inserted(c, Rank(c, n.key, 1), n))
  {
    hide Less, Inserted;
    var r := Rank(c, n.key, 1);
    var d := Inserted(c, r, n);
    RankSplits(c, n.key);
    InsertedAt(c, r, n, 0);
    forall p, q | 1 <= p < q < |d| ensures Less(d[p].key, d[q].key) {
      InsertedOrder(c, n, r, p, q);
    }
  }

  lemma SortedRemoved(c: Chain, r: nat)
    requires Sorted(c) && 1 <= r < |c|
    ensures Sorted(Removed(c, r))
  {
    var d := Removed(c, r);
    forall p, q | 1 <= p < q < |d| ensures Less(d[p].key, d[q].key) {
      assert d[p] == c[if p < r then p else p + 1] && d[q] == c[if q < r then q else q + 1];
    }
  }

  lemma ShapedInserted(c: Chain, maxLevel: nat, r: nat, n: Node)
    requires Shaped(c, maxLevel) && 1 <= r <= |c| && n.level <= maxLevel && n.forward.Length == n.level + 1
    requires forall p :: 0 <= p < |c| ==> c[p] != n && c[p].forward != n.forward
    ensures Shaped(Inserted(c, r, n), maxLevel) && Arrays(Inserted(c, r, n)) == Arrays(c) + {n.forward}
  {
    var d := Inserted(c, r, n);
    forall p | 0 <= p < |d| ensures d[p] == if p < r then c[p] else if p == r then n else c[p - 1] {}
    forall p | 0 <= p < |c| ensures c[p].forward in Arrays(d) {
      assert d[if p < r then p else p + 1] == c[p];
    }
    assert d[r] == n;
  }

  lemma ShapedRemoved(c: Chain, maxLevel: nat, r: nat)
    requires Shaped(c, maxLevel) && 1 <= r < |c|
    ensures Shaped(Removed(c, r), maxLevel) && Arrays(Removed(c, r)) <= Arrays(c)
  {
    var d := Removed(c, r);
    forall p | 0 <= p < |d| ensures d[p] == c[if p < r then p else p + 1] {}
  }

  /** The keys and values of all nodes, in order. */
  lemma DumpIs(c: Chain, m: map<string, string>, keys: seq<string>, values: seq<string>)
    requires Sorted(c) && Holds(c, m) && |keys| == |values| == |c| - 1
    requires forall p :: 0 <= p < |keys| ==> keys[p] == c[p + 1].key && values[p] == c[p + 1].value
    ensures |keys| == |m|
    ensures forall p :: 0 <= p < |keys| ==> keys[p] in m && values[p] == m[keys[p]]
    ensures forall p, q :: 0 <= p < q < |keys| ==> Less(keys[p], keys[q])
    ensures forall k :: k in m ==> k in keys
  {
    hide Less;
    forall p, q | 0 <= p < q < |keys| ensures Less(keys[p], keys[q]) {
      assert Less(c[p + 1].key, c[q + 1].key);
    }
    forall k | k in m ensures k in keys {
      var p :| 1 <= p < |c| && c[p].key == k;
      assert keys[p - 1] == k;
    }
  }

  lemma PredReaches(c: Chain, q: nat, i: nat)
    requires q < |c| && c[0].level >= i
    ensures c[Pred(c, q, i)].level >= i && (i == 0 ==> Pred(c, q, i) == q)
  {
  }

  /** From the node at `pos` level i leads on to a node before the key, or `pos` is the last such on level i. */
  ghost predicate Stands(c: Chain, key: string, pos: nat, i: nat)
    requires pos < |c|
    reads c[pos].forward
  {
    && 0 < Rank(c, key, 1) <= |c| && c[0].level >= i && i < c[pos].forward.Length
    && var r, next := Rank(c, key, 1), c[pos].forward[i];
       if next != null && Less(next.key, key)
       then var s := Succ(c, pos + 1, i); pos < s < r && c[s] == next && c[s].level >= i
       else Pred(c, r - 1, i) == pos
  }

  lemma Ahead(c: Chain, maxLevel: nat, key: string, pos: nat, i: nat)
    requires Shaped(c, maxLevel) && Sorted(c) && Linked(c, maxLevel, i) && i <= maxLevel
    requires pos < Rank(c, key, 1) && c[pos].level >= i
    ensures Stands(c, key, pos, i)
  {
    hide Less, Sorted, Rank;
    var r, s := Rank(c, key, 1), Succ(c, pos + 1, i);
    RankSplits(c, key);
    assert c[pos].forward[i] == Link(c, pos, i);
    if s >= r { PredIs(c, r - 1, i, pos); }
  }

  lemma LinkOf(c: Chain, maxLevel: nat, p: nat, i: nat)
    requires Shaped(c, maxLevel) && Linked(c, maxLevel, i) && p < |c| && c[p].level >= i
    ensures c[p].forward[i] == Link(c, p, i)
  {
  }

  class List {
    const maxLevel: nat          // _max_level
    const header: Node           // _header
    var skipLevel: nat           // _skip_list_level
    var elementCount: int        // _element_count
    ghost var chain: Chain
    ghost var model: map<string, string>

    ghost predicate Valid()
      reads this, Arrays(chain)
    {
      && Shaped(chain, maxLevel) && chain[0] == header
      && Sorted(chain) && Holds(chain, model) && Tight(chain, skipLevel)
      && skipLevel <= maxLevel && elementCount == |model|
      && forall i :: 0 <= i <= maxLevel ==> Linked(chain, maxLevel, i)
    }

    constructor (maxLevel: nat)
      ensures Valid() && fresh(Arrays(chain)) && model == map[] && this.maxLevel == maxLevel
    {
      this.maxLevel := maxLevel;
      skipLevel, elementCount := 0, 0;
      header := new Node("", "", maxLevel);
      new;
      chain, model := [header], map[];
    }

    /** get_random_level: one more than the number of odd draws before the first even one, at most maxLevel. */
    method GetRandomLevel(heads: nat) returns (k: nat)
      ensures k == if heads + 1 < maxLevel then heads + 1 else maxLevel
    {
      k := 1;
      var left := heads;
      while left > 0
        invariant k + left == heads + 1
      {
        k, left := k + 1, left - 1;
      }
      k := if k < maxLevel then k else maxLevel;
    }

    /** The inner loop of a search: on level i, to the last node before the key. */
    method Advance(start: Node, i: nat, key: string, ghost from: nat) returns (current: Node, ghost pos: nat)
      requires Valid() && i <= maxLevel && from < Rank(chain, key, 1) && chain[from] == start && start.level >= i
      ensures Valid()
      ensures var r := Rank(chain, key, 1);
              from <= pos < r && pos == Pred(chain, r - 1, i) && current == chain[Pred(chain, r - 1, i)]
    {
      hide Less, Sorted, Holds, Tight, Rank, Linked, Succ, Link, Pred;
      current, pos := start, from;
      ghost var r := Rank(chain, key, 1);
      Ahead(chain, maxLevel, key, pos, i);
      while current.forward[i] != null && Less(current.forward[i].key, key)
        invariant Valid() && Linked(chain, maxLevel, i)
        invariant from <= pos < r && chain[pos] == current && current.level >= i && Stands(chain, key, pos, i)
        decreases r - pos
      {
        pos := Succ(chain, pos + 1, i);
        current := current.forward[i];
        Ahead(chain, maxLevel, key, pos, i);
      }
    }

    lemma Start()
      requires Valid()
      ensures chain != [] && chain[0] == header && header.level == maxLevel && skipLevel <= maxLevel
    {
    }

    /** The search down the levels. Where it steps down from level i it stands on the last node of that level
        before the key, which goes to update[i]. */
    method Descend(key: string, update: array<Node?>) returns (current: Node)
      requires Valid() && update.Length == maxLevel + 1 && update !in Arrays(chain)
      modifies update
      ensures var r := Rank(chain, key, 1);
              && current == chain[r - 1]
              && forall i :: 0 <= i <= skipLevel ==> update[i] == chain[Pred(chain, r - 1, i)]
    {
      hide Less, Valid, Rank, Arrays, Pred;
      Start();
      current := header;
      ghost var pos := 0;
      ghost var r := Rank(chain, key, 1);
      var i := skipLevel as int;
      while i >= 0
        invariant Valid()
        invariant -1 <= i <= skipLevel && 0 <= pos < r && chain[pos] == current && current.level >= i
        invariant i < 0 ==> pos == r - 1
        invariant forall j :: i < j <= skipLevel ==> update[j] == chain[Pred(chain, r - 1, j)]
      {
        current, pos := Advance(current, i, key, pos);
        update[i] := current;
        PredReaches(chain, r - 1, i);
        i := i - 1;
      }
    }

    /** The same search, without the trail. */
    method Approach(key: string) returns (current: Node)
      requires Valid()
      ensures Valid() && current == chain[Rank(chain, key, 1) - 1]
    {
      hide Less, Sorted, Holds, Tight, Rank, Linked;
      current := header;
      ghost var pos := 0;
      var i := skipLevel as int;
      while i >= 0
        invariant Valid()
        invariant -1 <= i <= skipLevel && 0 <= pos < Rank(chain, key, 1) && chain[pos] == current && current.level >= i
        invariant i < 0 ==> pos == Rank(chain, key, 1) - 1
      {
        current, pos := Advance(current, i, key, pos);
        i := i - 1;
      }
    }

    method SearchElement(key: string) returns (found: bool, value: string)
      requires Valid()
      ensures Valid()
      ensures found <==> key in model
      ensures value == if found then model[key] else ""
    {
      hide Less, Sorted, Holds, Tight, Rank, Linked;
      var current: Node? := Approach(key);
      value := "";
      assert Valid() && Linked(chain, maxLevel, 0);
      Landing(chain, maxLevel, model, key);
      current := current.forward[0];
      found := current != null && current.key == key;
      if found { value := current.value; }
    }

    /** Link the new node into level i, behind the last node of that level before it. */
    method SpliceLevel(before: Node, node: Node, i: nat, ghost r: nat)
      requires Shaped(chain, maxLevel) && 1 <= r <= |chain| && i <= node.level <= maxLevel
      requires Linked(chain, maxLevel, i) && before == chain[Pred(chain, r - 1, i)]
      requires node.forward.Length == node.level + 1
      requires forall p :: 0 <= p < |chain| ==> chain[p] != node && chain[p].forward != node.forward
      modifies before.forward, node.forward
      ensures forall k :: 0 <= k < before.forward.Length && k != i ==> before.forward[k] == old(before.forward[k])
      ensures forall k :: 0 <= k < node.forward.Length && k != i ==> node.forward[k] == old(node.forward[k])
      ensures Shaped(Inserted(chain, r, node), maxLevel) && Linked(Inserted(chain, r, node), maxLevel, i)
      ensures forall k :: 0 <= k <= maxLevel && k != i && old(Linked(chain, maxLevel, k)) ==> Linked(chain, maxLevel, k)
      ensures forall k :: 0 <= k <= maxLevel && k != i && old(Linked(Inserted(chain, r, node), maxLevel, k)) ==>
                Linked(Inserted(chain, r, node), maxLevel, k)
    {
      hide Link, Inserted;
      ghost var u := Pred(chain, r - 1, i);
      assert before.forward[i] == Link(chain, u, i);
      node.forward[i] := before.forward[i];
      before.forward[i] := node;
      ghost var d := Inserted(chain, r, node);
      ShapedInserted(chain, maxLevel, r, node);
      InsertedAt(chain, r, node, 0);
      forall p | 0 <= p < |d| && d[p].level >= i ensures d[p].forward[i] == Link(d, p, i) {
        InsertedAt(chain, r, node, p);
        if p == r {
          InsertOwnLink(chain, node, r, i);
        } else {
          InsertLink(chain, node, r, i, if p < r then p else p - 1);
        }
      }
    }

    /** The last loop of insert_element: link the new node into every level that it reaches. */
    method Splice(update: array<Node?>, node: Node, ghost r: nat)
      requires Shaped(chain, maxLevel) && 1 <= r <= |chain| && node.level <= maxLevel
      requires forall i :: 0 <= i <= maxLevel ==> Linked(chain, maxLevel, i)
      requires node.forward.Length == node.level + 1
      requires forall p :: 0 <= p < |chain| ==> chain[p] != node && chain[p].forward != node.forward
      requires update.Length == maxLevel + 1 && update !in Arrays(chain) && update != node.forward
      requires forall i :: 0 <= i <= node.level ==> update[i] == chain[Pred(chain, r - 1, i)]
      modifies Arrays(chain), node.forward
      ensures Shaped(Inserted(chain, r, node), maxLevel)
      ensures forall i :: 0 <= i <= maxLevel ==> Linked(Inserted(chain, r, node), maxLevel, i)
    {
      hide Link, Linked, Inserted, Pred;
      ghost var d := Inserted(chain, r, node);
      ShapedInserted(chain, maxLevel, r, node);
      var i := 0;
      while i <= node.level
        invariant 0 <= i <= node.level + 1
        invariant forall k :: 0 <= k < i ==> Linked(d, maxLevel, k)
        invariant forall k :: i <= k <= maxLevel ==> Linked(chain, maxLevel, k)
      {
        var before := update[i];
        assert before.forward in Arrays(chain);
        SpliceLevel(before, node, i, r);
        i := i + 1;
      }
      forall k | node.level < k <= maxLevel ensures Linked(d, maxLevel, k) {
        LinkedAbove(chain, maxLevel, r, node, k);
      }
    }

    /** The middle part of insert_element: on levels used for the first time the header comes before. */
    method Raise(update: array<Node?>, level: nat, ghost r: nat)
      requires Valid() && 1 <= r <= |chain| && level <= maxLevel
      requires update.Length == maxLevel + 1 && update !in Arrays(chain)
      requires forall i :: 0 <= i <= skipLevel ==> update[i] == chain[Pred(chain, r - 1, i)]
      modifies this`skipLevel, update
      ensures skipLevel == if level > old(skipLevel) then level else old(skipLevel)
      ensures forall i :: 0 <= i <= level ==> update[i] == chain[Pred(chain, r - 1, i)]
    {
      hide Less, Sorted, Holds, Rank, Linked;
      if level > skipLevel {
        var i := skipLevel + 1;
        while i < level + 1
          invariant skipLevel + 1 <= i <= level + 1
          invariant forall j :: 0 <= j < i ==> update[j] == chain[Pred(chain, r - 1, j)]
        {
          PredIs(chain, r - 1, i, 0);
          update[i] := header;
          i := i + 1;
        }
        skipLevel := level;
      }
    }

    /** The last part of insert_element: a new node of the level drawn, at its place. */
    method Place(update: array<Node?>, key: string, value: string, level: nat)
      requires Valid() && key !in model && level <= maxLevel
      requires update.Length == maxLevel + 1 && update !in Arrays(chain)
      requires forall i :: 0 <= i <= skipLevel ==> update[i] == chain[Pred(chain, Rank(chain, key, 1) - 1, i)]
      modifies this, Arrays(chain), update
      ensures Valid() && fresh(Arrays(chain) - old(Arrays(chain)))
      ensures model == old(model)[key := value]
    {
      hide Less, Sorted, Holds, Tight, Rank, Linked, Inserted, Pred;
      ghost var r := Rank(chain, key, 1);
      ghost var top := skipLevel;
      Raise(update, level, r);
      var node := new Node(key, value, level);
      Splice(update, node, r);
      InsertedHolds(chain, maxLevel, node, model, top);
      chain, model := Inserted(chain, r, node), model[key := value];
      elementCount := elementCount + 1;
    }

    /** Insert unless the key is there; `heads` stands for the draws of get_random_level. */
    method InsertElement(key: string, value: string, heads: nat) returns (code: int)
      requires Valid()
      modifies this, Arrays(chain)
      ensures Valid() && fresh(Arrays(chain) - old(Arrays(chain)))
      ensures code == if key in old(model) then 1 else 0
      ensures model == if key in old(model) then old(model) else old(model)[key := value]
    {
      hide Less, Sorted, Holds, Tight, Rank, Linked, Inserted, Pred;
      var update := new Node?[maxLevel + 1](_ => null);
      var before := Descend(key, update);
      assert Linked(chain, maxLevel, 0);
      Landing(chain, maxLevel, model, key);
      var current := before.forward[0];
      if current != null && current.key == key {
        return 1;
      }
      var level := GetRandomLevel(heads);
      Place(update, key, value, level);
      return 0;
    }

    /** Take the node at place r out of level i, if it is there. */
    method UnlinkLevel(before: Node, current: Node, i: nat, ghost r: nat)
      requires Shaped(chain, maxLevel) && 1 <= r < |chain| && current == chain[r] && i <= current.level
      requires Linked(chain, maxLevel, i) && before == chain[Pred(chain, r - 1, i)]
      requires before.forward[i] == current
      modifies before.forward
      ensures forall k :: 0 <= k < before.forward.Length && k != i ==> before.forward[k] == old(before.forward[k])
      ensures Shaped(Removed(chain, r), maxLevel) && Linked(Removed(chain, r), maxLevel, i)
      ensures forall k :: 0 <= k <= maxLevel && k != i && old(Linked(chain, maxLevel, k)) ==> Linked(chain, maxLevel, k)
      ensures forall k :: 0 <= k <= maxLevel && k != i && old(Linked(Removed(chain, r), maxLevel, k)) ==>
                Linked(Removed(chain, r), maxLevel, k)
    {
      hide Link, Removed;
      assert current.forward[i] == Link(chain, r, i);
      before.forward[i] := current.forward[i];
      ghost var d := Removed(chain, r);
      ShapedRemoved(chain, maxLevel, r);
      RemovedAt(chain, r, 0);
      forall p | 0 <= p < |d| && d[p].level >= i ensures d[p].forward[i] == Link(d, p, i) {
        RemovedAt(chain, r, p);
        RemoveLink(chain, r, i, if p < r then p else p + 1);
      }
    }

    /** The loop of delete_element: take the node out of every level, until one that does not link to it. */
    method Unlink(update: array<Node?>, current: Node, ghost r: nat)
      requires Valid() && 1 <= r < |chain| && current == chain[r]
      requires update.Length == maxLevel + 1 && update !in Arrays(chain)
      requires forall i :: 0 <= i <= skipLevel ==> update[i] == chain[Pred(chain, r - 1, i)]
      modifies Arrays(chain)
      ensures Shaped(Removed(chain, r), maxLevel)
      ensures forall i :: 0 <= i <= maxLevel ==> Linked(Removed(chain, r), maxLevel, i)
    {
      hide Link, Linked, Removed, Pred, Sorted, Holds;
      ghost var d := Removed(chain, r);
      ShapedRemoved(chain, maxLevel, r);
      var i := 0;
      while i <= skipLevel
        invariant 0 <= i <= skipLevel + 1 && i <= current.level + 1
        invariant forall k :: 0 <= k < i ==> Linked(d, maxLevel, k)
        invariant forall k :: i <= k <= maxLevel ==> Linked(chain, maxLevel, k)
      {
        var before := update[i];
        LinkedFromPred(chain, r, i);
        LinkOf(chain, maxLevel, Pred(chain, r - 1, i), i);
        if before.forward[i] != current {
          break;
        }
        assert before.forward in Arrays(chain);
        UnlinkLevel(before, current, i, r);
        i := i + 1;
      }
      forall k | i <= k <= maxLevel ensures Linked(d, maxLevel, k) {
        LinkedBelow(chain, maxLevel, r, k);
      }
    }

    /** The last loop of delete_element: levels that have become empty go out of use. */
    method Lower(ghost d: Chain, ghost r: nat)
      requires Shaped(d, maxLevel) && d[0] == header && forall i :: 0 <= i <= maxLevel ==> Linked(d, maxLevel, i)
      requires skipLevel <= maxLevel && forall p :: 1 <= p < |d| ==> d[p].level <= skipLevel
      modifies this`skipLevel
      ensures skipLevel <= maxLevel && Tight(d, skipLevel)
    {
      while skipLevel > 0 && header.forward[skipLevel] == null
        invariant skipLevel <= maxLevel && forall p :: 1 <= p < |d| ==> d[p].level <= skipLevel
        invariant forall i :: 0 <= i <= maxLevel ==> Linked(d, maxLevel, i)
      {
        assert Linked(d, maxLevel, skipLevel);
        assert header.forward[skipLevel] == Link(d, 0, skipLevel);
        label L:
        skipLevel := skipLevel - 1;
        forall k | 0 <= k <= maxLevel ensures Linked(d, maxLevel, k) { assert old@L(Linked(d, maxLevel, k)); }
      }
      if skipLevel > 0 {
        assert Linked(d, maxLevel, skipLevel);
        assert header.forward[skipLevel] == Link(d, 0, skipLevel);
        assert d[Succ(d, 1, skipLevel)].level == skipLevel;
      }
    }

    /** The branch of delete_element for a key that is there. */
    method TakeOut(update: array<Node?>, current: Node, ghost r: nat)
      requires Valid() && 1 <= r < |chain| && current == chain[r]
      requires update.Length == maxLevel + 1 && update !in Arrays(chain)
      requires forall i :: 0 <= i <= skipLevel ==> update[i] == chain[Pred(chain, r - 1, i)]
      modifies this, Arrays(chain)
      ensures Valid() && Arrays(chain) <= old(Arrays(chain))
      ensures model == old(model) - {current.key} && current !in chain
    {
      hide Less, Sorted, Holds, Rank, Linked, Removed, Pred;
      Unlink(update, current, r);
      RemovedHolds(chain, maxLevel, r, model);
      RemovedLevels(chain, r, skipLevel);
      Lower(Removed(chain, r), r);
      chain, model := Removed(chain, r), model - {current.key};
      elementCount := elementCount - 1;
    }

    method DeleteElement(key: string)
      requires Valid()
      modifies this, Arrays(chain)
      ensures Valid() && Arrays(chain) <= old(Arrays(chain))
      ensures model == old(model) - {key}
    {
      hide Less, Sorted, Holds, Rank, Linked, Removed, Pred;
      var update := new Node?[maxLevel + 1](_ => null);
      var before := Descend(key, update);
      assert Linked(chain, maxLevel, 0);
      Landing(chain, maxLevel, model, key);
      var current := before.forward[0];
      if current != null && current.key == key {
        TakeOut(update, current, Rank(chain, key, 1));
      }
    }

    /** insert_set_element. */
    method InsertSetElement(key: string, value: string, heads: nat)
      requires Valid()
      modifies this, Arrays(chain)
      ensures Valid() && fresh(Arrays(chain) - old(Arrays(chain)))
      ensures model == old(model)[key := value]
    {
      hide Valid;
      var found, _ := SearchElement(key);
      if found {
        DeleteElement(key);
      }
      var _ := InsertElement(key, value, heads);
      assert old(model)[key := value] == (old(model) - {key})[key := value];
    }

    /** dump_file: the keys and values in the order of level 0. */
    method DumpFile() returns (keys: seq<string>, values: seq<string>)
      requires Valid()
      ensures |keys| == |values| == |model|
      ensures forall p :: 0 <= p < |keys| ==> keys[p] in model && values[p] == model[keys[p]]
      ensures forall p, q :: 0 <= p < q < |keys| ==> Less(keys[p], keys[q])
      ensures forall k :: k in model ==> k in keys
    {
      hide Less, Linked, Tight, Sorted, Holds;
      keys, values := [], [];
      ghost var pos := 1;
      Following(chain, maxLevel, 0);
      var node := header.forward[0];
      while node != null
        invariant 1 <= pos <= |chain| && node == At(chain, pos) && Linked(chain, maxLevel, 0)
        invariant |keys| == |values| == pos - 1
        invariant forall p :: 0 <= p < pos - 1 ==> keys[p] == chain[p + 1].key && values[p] == chain[p + 1].value
        decreases |chain| - pos
      {
        keys, values := keys + [node.key], values + [node.value];
        Following(chain, maxLevel, pos);
        node := node.forward[0];
        pos := pos + 1;
      }
      DumpIs(chain, model, keys, values);
    }

    /** load_file, which inserts every key as its own value. */
    method LoadFile(keys: seq<string>, heads: seq<nat>)
      requires Valid() && |heads| == |keys|
      modifies this, Arrays(chain)
      ensures Valid() && fresh(Arrays(chain) - old(Arrays(chain)))
      ensures model == Loaded(old(model), keys)
    {
      hide Less, Sorted, Holds, Rank, Linked, Shaped, Tight;
      var i := 0;
      while i < |keys|
        invariant i <= |keys| && Valid() && fresh(Arrays(chain) - old(Arrays(chain)))
        invariant model == Loaded(old(model), keys[..i])
      {
        var _ := InsertElement(keys[i], keys[i], heads[i]);
        i := i + 1;
        assert keys[..i][..i - 1] == keys[..i - 1];
      }
      assert keys[..i] == keys;
    }

    method Size() returns (n: int)
      requires Valid()
      ensures n == |model|
    {
      n := elementCount;
    }
  }

  lemma RemovedHolds(c: Chain, maxLevel: nat, r: nat, m: map<string, string>)
    requires Shaped(c, maxLevel) && Sorted(c) && Holds(c, m) && 1 <= r < |c|
    ensures var d := Removed(c, r);
            && Sorted(d) && Holds(d, m - {c[r].key}) && Arrays(d) <= Arrays(c)
            && d != [] && d[0] == c[0] && |m - {c[r].key}| == |m| - 1 && c[r] !in d
  {
    hide Less, Sorted, Removed;
    SortedRemoved(c, r);
    HoldsRemoved(c, r, m);
    ShapedRemoved(c, maxLevel, r);
    RemovedAt(c, r, 0);
    forall p | 0 <= p < |Removed(c, r)| ensures Removed(c, r)[p] != c[r] {
      RemovedAt(c, r, p);
    }
  }

  lemma RemovedLevels(c: Chain, r: nat, top: nat)
    requires Tight(c, top) && 1 <= r < |c|
    ensures forall p :: 1 <= p < |Removed(c, r)| ==> Removed(c, r)[p].level <= top
  {
    forall p | 1 <= p < |Removed(c, r)| ensures Removed(c, r)[p].level <= top {
      RemovedAt(c, r, p);
    }
  }

  /** The levels that the removed node does not reach stay as they are. */
  lemma LinkedBelow(c: Chain, maxLevel: nat, r: nat, k: nat)
    requires Shaped(c, maxLevel) && 1 <= r < |c| && c[r].level < k <= maxLevel && Linked(c, maxLevel, k)
    requires Shaped(Removed(c, r), maxLevel)
    ensures Linked(Removed(c, r), maxLevel, k)
  {
    hide Link, Removed;
    var d := Removed(c, r);
    RemovedAt(c, r, 0);
    forall p | 0 <= p < |d| && d[p].level >= k ensures d[p].forward[k] == Link(d, p, k) {
      RemovedAt(c, r, p);
      RemoveLink(c, r, k, if p < r then p else p + 1);
    }
  }

  /** What the list with a new node satisfies besides its links. */
  lemma InsertedHolds(c: Chain, maxLevel: nat, n: Node, m: map<string, string>, top: nat)
    requires Shaped(c, maxLevel) && Sorted(c) && Holds(c, m) && Tight(c, top) && n.key !in m
    requires n.level <= maxLevel && n.forward.Length == n.level + 1
    requires forall p :: 0 <= p < |c| ==> c[p] != n && c[p].forward != n.forward
    ensures var r := Rank(c, n.key, 1); var d := Inserted(c, r, n);
            && Sorted(d) && Holds(d, m[n.key := n.value]) && Tight(d, if n.level > top then n.level else top)
            && Arrays(d) == Arrays(c) + {n.forward} && d[0] == c[0]
  {
    hide Less, Sorted, Inserted;
    var r := Rank(c, n.key, 1);
    SortedInserted(c, n);
    HoldsInserted(c, r, n, m);
    ShapedInserted(c, maxLevel, r, n);
    TightInserted(c, r, n, top);
    InsertedAt(c, r, n, 0);
  }

  lemma TightInserted(c: Chain, r: nat, n: Node, top: nat)
    requires Tight(c, top) && 1 <= r <= |c|
    ensures Tight(Inserted(c, r, n), if n.level > top then n.level else top)
  {
    hide Inserted;
    var d := Inserted(c, r, n);
    InsertedAt(c, r, n, r);
    forall p | 1 <= p < |d| ensures d[p].level <= if n.level > top then n.level else top {
      InsertedAt(c, r, n, p);
    }
    if top > 0 && n.level < top {
      var p :| 1 <= p < |c| && c[p].level == top;
      InsertedAt(c, r, n, if p < r then p else p + 1);
      assert d[if p < r then p else p + 1].level == top;
    } else {
      assert d[r].level == n.level;
    }
  }

  /** The levels that the new node does not reach stay as they are. */
  lemma LinkedAbove(c: Chain, maxLevel: nat, r: nat, n: Node, k: nat)
    requires Shaped(c, maxLevel) && 1 <= r <= |c| && n.level < k <= maxLevel && Linked(c, maxLevel, k)
    requires Shaped(Inserted(c, r, n), maxLevel)
    ensures Linked(Inserted(c, r, n), maxLevel, k)
  {
    hide Link, Inserted;
    var d := Inserted(c, r, n);
    InsertedAt(c, r, n, 0);
    forall p | 0 <= p < |d| && d[p].level >= k ensures d[p].forward[k] == Link(d, p, k) {
      InsertedAt(c, r, n, p);
      InsertLink(c, n, r, k, if p < r then p else p - 1);
    }
  }

  /** The node behind the place where a search ends has the key, or no node has. */
  lemma Landing(c: Chain, maxLevel: nat, m: map<string, string>, key: string)
    requires Shaped(c, maxLevel) && Sorted(c) && Holds(c, m) && Linked(c, maxLevel, 0)
    ensures var r := Rank(c, key, 1);
            && c[r - 1].forward.Length > 0 && c[r - 1].forward[0] == At(c, r)
            && (key in m <==> r < |c| && c[r].key == key)
            && (r < |c| && c[r].key == key ==> m[key] == c[r].value)
  {
    hide Less, Sorted;
    var r := Rank(c, key, 1);
    RankSplits(c, key);
    SuccIs(c, r, 0, r);
    assert c[r - 1].forward[0] == Link(c, r - 1, 0);
  }

  /** The link of level 0 leads to the next node. */
  lemma Following(c: Chain, maxLevel: nat, p: nat)
    requires Shaped(c, maxLevel) && p < |c| && Linked(c, maxLevel, 0)
    ensures c[p].forward.Length > 0 && c[p].forward[0] == At(c, p + 1)
  {
    SuccIs(c, p + 1, 0, p + 1);
    assert c[p].forward[0] == Link(c, p, 0);
  }

  // Dumping and loading.

  function Loaded(m: map<string, string>, keys: seq<string>): map<string, string> {
    if keys == [] then m
    else
      var w := Loaded(m, keys[..|keys| - 1]);
      var k := keys[|keys| - 1];
      if k in w then w else w[k := k]
  }

  lemma {:induction false} LoadedAre(m: map<string, string>, keys: seq<string>)
    ensures var w := Loaded(m, keys);
            && (forall k :: k in w <==> k in m || k in keys)
            && (forall k :: k in w ==> w[k] == if k in m then m[k] else k)
  {
    if keys != [] {
      LoadedAre(m, keys[..|keys| - 1]);
      assert keys == keys[..|keys| - 1] + [keys[|keys| - 1]];
    }
  }

  /** Loading a dump into an empty list brings back every key, and the values if and only if each was equal
      to its key. */
  lemma DumpLoadKeys(m: map<string, string>, keys: seq<string>)
    requires forall k :: k in m <==> k in keys
    ensures Loaded(map[], keys).Keys == m.Keys
    ensures Loaded(map[], keys) == m <==> forall k :: k in m ==> m[k] == k
  {
    LoadedAre(map[], keys);
  }

  // Levels.

  /** The links of level i lead from node n through the nodes of `l`, in order, and end there. */
  ghost predicate Threads(n: Node, l: seq<Node>, i: nat)
    reads n.forward, set x | x in l :: x.forward
    decreases |l|
  {
    && i < n.forward.Length
    && (if l == [] then n.forward[i] == null else n.forward[i] == l[0] && Threads(l[0], l[1..], i))
  }

  lemma {:induction false} ThreadsFrom(c: Chain, maxLevel: nat, p: nat, i: nat)
    requires Shaped(c, maxLevel) && i <= maxLevel && Linked(c, maxLevel, i) && p < |c| && c[p].level >= i
    ensures Threads(c[p], LevelFrom(c, p + 1, i), i)
    decreases |c| - p
  {
    hide Threads, LevelFrom;
    LinkIsNext(c, p + 1, i);
    LinkOf(c, maxLevel, p, i);
    var s := Succ(c, p + 1, i);
    if s < |c| {
      ThreadsFrom(c, maxLevel, s, i);
      OneThreadMore(c[p], c[s], LevelFrom(c, s + 1, i), i);
    } else {
      NoThread(c[p], i);
    }
  }

  lemma OneThreadMore(n: Node, next: Node, l: seq<Node>, i: nat)
    requires i < n.forward.Length && n.forward[i] == next && Threads(next, l, i)
    ensures Threads(n, [next] + l, i)
  {
    assert ([next] + l)[1..] == l;
  }

  lemma NoThread(n: Node, i: nat)
    requires i < n.forward.Length && n.forward[i] == null
    ensures Threads(n, [], i)
  {
  }

  /** Every level of a valid list is a strictly sorted list of its nodes, and a sublist of the level below. */
  lemma LevelsNest(list: List, i: nat)
    requires list.Valid() && i <= list.maxLevel
    ensures var l := LevelFrom(list.chain, 1, i);
            && Threads(list.header, l, i)
            && (forall a, b :: 0 <= a < b < |l| ==> Less(l[a].key, l[b].key))
            && (i > 0 ==> SublistOf(l, LevelFrom(list.chain, 1, i - 1)))
            && (i > list.skipLevel ==> l == [])
  {
    hide Less, Threads, SublistOf;
    ThreadsFrom(list.chain, list.maxLevel, 0, i);
    LevelSorted(list.chain, 1, i);
    if i > 0 { LevelSublist(list.chain, 1, i - 1); }
    if i > list.skipLevel { LinkIsNext(list.chain, 1, i); }
  }

  // Whole histories of a list.

  datatype ListOp =
    | Insert(key: string, value: string)
    | Put(key: string, value: string)
    | Delete(key: string)
    | Search(key: string)

  datatype ListOut = Code(code: int) | Done | Found(found: bool, value: string)

  /** The operation on a finite map. */
  function OnMap(m: map<string, string>, op: ListOp): (map<string, string>, ListOut) {
    match op
    case Insert(k, v) => if k in m then (m, Code(1)) else (m[k := v], Code(0))
    case Put(k, v) => (m[k := v], Done)
    case Delete(k) => (m - {k}, Done)
    case Search(k) => (m, if k in m then Found(true, m[k]) else Found(false, ""))
  }

  function MapAfter(ops: seq<ListOp>): map<string, string> {
    if ops == [] then map[] else OnMap(MapAfter(ops[..|ops| - 1]), ops[|ops| - 1]).0
  }

  function OutOf(ops: seq<ListOp>, i: nat): ListOut
    requires i < |ops|
  {
    OnMap(MapAfter(ops[..i]), ops[i]).1
  }

  method Perform(list: List, op: ListOp, heads: nat) returns (out: ListOut)
    requires list.Valid()
    modifies list, Arrays(list.chain)
    ensures list.Valid() && fresh(Arrays(list.chain) - old(Arrays(list.chain)))
    ensures (list.model, out) == OnMap(old(list.model), op)
  {
    match op
    case Insert(k, v) =>
      var code := list.InsertElement(k, v, heads);
      out := Code(code);
    case Put(k, v) =>
      list.InsertSetElement(k, v, heads);
      out := Done;
    case Delete(k) =>
      list.DeleteElement(k);
      out := Done;
    case Search(k) =>
      var found, value := list.SearchElement(k);
      out := Found(found, value);
  }

  /** For every sequence of operations and every choice of levels, the list answers as a finite map. */
  method RunAll(maxLevel: nat, ops: seq<ListOp>, heads: seq<nat>) returns (outs: seq<ListOut>, size: int)
    requires |heads| == |ops|
    ensures |outs| == |ops| && forall i :: 0 <= i < |ops| ==> outs[i] == OutOf(ops, i)
    ensures size == |MapAfter(ops)|
  {
    hide Less, Sorted, Holds, Rank, Linked, Shaped, Tight, OnMap;
    var list := new List(maxLevel);
    outs := [];
    var i := 0;
    while i < |ops|
      invariant i <= |ops| && |outs| == i && list.Valid() && fresh(list) && fresh(Arrays(list.chain))
      invariant list.model == MapAfter(ops[..i])
      invariant forall j :: 0 <= j < i ==> outs[j] == OutOf(ops, j)
    {
      var out := Perform(list, ops[i], heads[i]);
      outs := outs + [out];
      i := i + 1;
      assert ops[..i][..i - 1] == ops[..i - 1];
    }
    assert ops[..i] == ops;
    size := list.Size();
  }
}
