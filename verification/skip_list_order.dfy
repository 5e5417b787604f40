/** The order of keys, and the towers of a skip list in it: what each level links is fixed by the towers. */
module SkipListOrder {

  /** operator< of std::string. */
  predicate Less(a: string, b: string)
    decreases |a|
  {
    b != "" && (a == "" || a[0] < b[0] || (a[0] == b[0] && Less(a[1..], b[1..])))
  }

  lemma {:induction false} LessTotal(a: string, b: string)
    ensures !(Less(a, b) && Less(b, a))
    ensures a == b ==> !Less(a, b)
    ensures Less(a, b) || a == b || Less(b, a)
    decreases |a|
  {
    if a != "" && b != "" && a[0] == b[0] {
      LessTotal(a[1..], b[1..]);
      assert a == [a[0]] + a[1..] && b == [b[0]] + b[1..];
    }
  }

  lemma {:induction false} LessOn(a: string, b: string, c: string)
    requires Less(a, b) && Less(b, c)
    ensures Less(a, c)
    decreases |a|
  {
    if a != "" && a[0] == b[0] && b[0] == c[0] {
      LessOn(a[1..], b[1..], c[1..]);
    }
  }

  /** The first character in which two strings differ decides; if there is none, the shorter comes first. */
  lemma {:induction false} LessExactly(a: string, b: string, k: nat)
    requires k <= |a| && k <= |b| && a[..k] == b[..k]
    ensures k < |a| && k < |b| && a[k] != b[k] ==> (Less(a, b) <==> a[k] < b[k])
    ensures k == |a| || k == |b| ==> (Less(a, b) <==> |a| < |b|)
  {
    if k > 0 {
      assert a[0] == a[..k][0] == b[..k][0] == b[0];
      assert a[1..][..k - 1] == a[..k][1..] == b[..k][1..] == b[1..][..k - 1];
      LessExactly(a[1..], b[1..], k - 1);
    }
  }

  /** A node of the list; forward[i] is the next node on level i. */
  class Node {
    const key: string
    const value: string
    const level: nat
    const forward: array<Node?>

    constructor (key: string, value: string, level: nat)
      ensures this.key == key && this.value == value && this.level == level
      ensures fresh(forward) && forward.Length == level + 1
      ensures forall i :: 0 <= i <= level ==> forward[i] == null
    {
      this.key, this.value, this.level := key, value, level;
      forward := new Node?[level + 1](_ => null);
    }
  }

  /** The header, then the nodes of the list in the order of level 0. */
  type Chain = seq<Node>

  ghost predicate Sorted(c: Chain) {
    forall p, q :: 1 <= p < q < |c| ==> Less(c[p].key, c[q].key)
  }

  /** The place of the first node from place q on that is not before `key`. */
  ghost function Rank(c: Chain, key: string, q: nat): (r: nat)
    requires q <= |c|
    ensures q <= r <= |c|
    ensures forall p :: q <= p < r ==> Less(c[p].key, key)
    ensures r < |c| ==> !Less(c[r].key, key)
    decreases |c| - q
  {
    if q == |c| || !Less(c[q].key, key) then q else Rank(c, key, q + 1)
  }

  /** No node from its place on is before the key, and the key can only be there. */
  lemma RankSplits(c: Chain, key: string)
    requires Sorted(c) && 1 <= |c|
    ensures var r := Rank(c, key, 1);
            && (forall p :: r <= p < |c| ==> !Less(c[p].key, key))
            && (forall p :: 1 <= p < |c| && c[p].key == key ==> p == r)
            && (forall p :: r < p < |c| ==> Less(key, c[p].key))
            && (r < |c| && c[r].key != key ==> Less(key, c[r].key))
  {
    var r := Rank(c, key, 1);
    if r < |c| {
      LessTotal(c[r].key, key);
      forall p | r < p < |c| ensures Less(key, c[p].key) && !Less(c[p].key, key) {
        assert Less(c[r].key, c[p].key);
        if c[r].key != key { LessOn(key, c[r].key, c[p].key); }
        LessTotal(c[p].key, key);
      }
    }
    forall p | 1 <= p < r ensures c[p].key != key {
      LessTotal(c[p].key, key);
    }
  }

  // Which node follows which on a level.

  /** The place of the first node from place q on that reaches level i, or the end. */
  ghost function Succ(c: Chain, q: nat, i: nat): (r: nat)
    requires q <= |c|
    ensures q <= r <= |c|
    ensures r < |c| ==> c[r].level >= i
    ensures forall k :: q <= k < r ==> c[k].level < i
    decreases |c| - q
  {
    if q == |c| || c[q].level >= i then q else Succ(c, q + 1, i)
  }

  lemma SuccIs(c: Chain, q: nat, i: nat, r: nat)
    requires q <= r <= |c| && (r < |c| ==> c[r].level >= i) && forall k :: q <= k < r ==> c[k].level < i
    ensures Succ(c, q, i) == r
  {
  }

  /** The place of the last node up to place q that reaches level i; the header reaches all. */
  ghost function Pred(c: Chain, q: nat, i: nat): (r: nat)
    requires q < |c| && c[0].level >= i
    ensures r <= q && c[r].level >= i
    ensures forall k :: r < k <= q ==> c[k].level < i
  {
    if c[q].level >= i then q else Pred(c, q - 1, i)
  }

  lemma PredIs(c: Chain, q: nat, i: nat, r: nat)
    requires r <= q < |c| && c[0].level >= i && c[r].level >= i && forall k :: r < k <= q ==> c[k].level < i
    ensures Pred(c, q, i) == r
  {
  }

  ghost function At(c: Chain, q: nat): Node? {
    if q < |c| then c[q] else null
  }

  /** What forward[i] of the node at place p must be. */
  ghost function Link(c: Chain, p: nat, i: nat): Node?
    requires p < |c|
  {
    At(c, Succ(c, p + 1, i))
  }

  ghost function Inserted(c: Chain, r: nat, n: Node): Chain
    requires r <= |c|
  {
    c[..r] + [n] + c[r..]
  }

  ghost function Removed(c: Chain, r: nat): Chain
    requires r < |c|
  {
    c[..r] + c[r + 1..]
  }

  lemma InsertedAt(c: Chain, r: nat, n: Node, k: nat)
    requires r <= |c| && k <= |c|
    ensures |Inserted(c, r, n)| == |c| + 1
    ensures Inserted(c, r, n)[k] == if k < r then c[k] else if k == r then n else c[k - 1]
  {
  }

  lemma InsertLinkAfter(c: Chain, n: Node, r: nat, i: nat, p: nat)
    requires 1 <= r <= p < |c|
    ensures Link(Inserted(c, r, n), p + 1, i) == Link(c, p, i)
  {
    var d := Inserted(c, r, n);
    var q := Succ(c, p + 1, i);
    forall k | p + 2 <= k < q + 1 ensures d[k].level < i { InsertedAt(c, r, n, k); }
    SuccIs(d, p + 2, i, q + 1);
  }

  lemma InsertLinkAcross(c: Chain, n: Node, r: nat, i: nat, p: nat)
    requires 1 <= r <= |c| && p < r && forall k :: p < k < r ==> c[k].level < i
    ensures Link(Inserted(c, r, n), p, i) == if n.level >= i then n else Link(c, p, i)
  {
    var d := Inserted(c, r, n);
    var q := Succ(c, p + 1, i);
    assert q >= r;
    forall k | p < k <= |c| ensures d[k] == if k < r then c[k] else if k == r then n else c[k - 1] {
      InsertedAt(c, r, n, k);
    }
    SuccIs(d, p + 1, i, if n.level >= i then r else q + 1);
  }

  lemma InsertLinkBefore(c: Chain, n: Node, r: nat, i: nat, p: nat, u: nat)
    requires p < u < r <= |c| && c[u].level >= i
    ensures Link(Inserted(c, r, n), p, i) == Link(c, p, i)
  {
    var d := Inserted(c, r, n);
    var q := Succ(c, p + 1, i);
    assert q <= u;
    SuccIs(d, p + 1, i, q);
  }

  /** A new node at place r takes over, on the levels that it reaches, the link of the node before it. */
  lemma InsertLink(c: Chain, n: Node, r: nat, i: nat, p: nat)
    requires 1 <= r <= |c| && c[0].level >= i && p < |c| && c[p].level >= i
    ensures var d := Inserted(c, r, n);
            if p < r then Link(d, p, i) == if n.level >= i && p == Pred(c, r - 1, i) then n else Link(c, p, i)
            else Link(d, p + 1, i) == Link(c, p, i)
  {
    hide Link, Inserted;
    InsertedAt(c, r, n, p);
    if p >= r {
      InsertLinkAfter(c, n, r, i, p);
    } else if p == Pred(c, r - 1, i) {
      InsertLinkAcross(c, n, r, i, p);
    } else {
      InsertLinkBefore(c, n, r, i, p, Pred(c, r - 1, i));
    }
  }

  lemma InsertOwnLink(c: Chain, n: Node, r: nat, i: nat)
    requires 1 <= r <= |c| && c[0].level >= i
    ensures Link(Inserted(c, r, n), r, i) == Link(c, Pred(c, r - 1, i), i)
  {
    var d := Inserted(c, r, n);
    var q := Succ(c, Pred(c, r - 1, i) + 1, i);
    assert q >= r;
    forall k | r + 1 <= k < q + 1 ensures d[k].level < i { assert d[k] == c[k - 1]; }
    SuccIs(d, r + 1, i, q + 1);
  }

  lemma PredSame(c: Chain, d: Chain, q: nat, i: nat)
    requires q < |c| && q < |d| && c[0].level >= i && d[0].level >= i && forall k :: 0 <= k <= q ==> d[k] == c[k]
    ensures Pred(d, q, i) == Pred(c, q, i)
  {
    PredIs(d, q, i, Pred(c, q, i));
  }

  /** Without the node at place r, the node before it on a level takes over its link. */
  lemma RemoveLink(c: Chain, r: nat, i: nat, p: nat)
    requires 1 <= r < |c| && c[0].level >= i && p < |c| && p != r && c[p].level >= i
    ensures var d := Removed(c, r);
            if p < r then Link(d, p, i) == if c[r].level >= i && p == Pred(c, r - 1, i) then Link(c, r, i) else Link(c, p, i)
            else Link(d, p - 1, i) == Link(c, p, i)
  {
    var d := Removed(c, r);
    assert Inserted(d, r, c[r]) == c && d[if p < r then p else p - 1] == c[p] && d[0] == c[0];
    PredSame(c, d, r - 1, i);
    hide Link, Inserted, Removed, Pred;
    if p < r {
      InsertLink(d, c[r], r, i, p);
      if c[r].level >= i && p == Pred(c, r - 1, i) { InsertOwnLink(d, c[r], r, i); }
    } else {
      InsertLink(d, c[r], r, i, p - 1);
    }
  }

  /** The node before place r links to it exactly on the levels that it reaches. */
  lemma LinkedFromPred(c: Chain, r: nat, i: nat)
    requires 1 <= r < |c| && c[0].level >= i && forall p, q :: 0 <= p < q < |c| ==> c[p] != c[q]
    ensures Link(c, Pred(c, r - 1, i), i) == c[r] <==> c[r].level >= i
  {
    if c[r].level >= i { SuccIs(c, Pred(c, r - 1, i) + 1, i, r); }
  }

  // Levels as lists.

  /** The nodes from place q on that reach level i, in order: the list on level i. */
  ghost function LevelFrom(c: Chain, q: nat, i: nat): seq<Node>
    requires q <= |c|
    decreases |c| - q
  {
    if q == |c| then []
    else if c[q].level >= i then [c[q]] + LevelFrom(c, q + 1, i)
    else LevelFrom(c, q + 1, i)
  }

  /** `a` is `b` with some elements left out. */
  ghost predicate SublistOf<T>(a: seq<T>, b: seq<T>)
    decreases |b|
  {
    a == [] || (b != [] && ((a[0] == b[0] && SublistOf(a[1..], b[1..])) || SublistOf(a, b[1..])))
  }

  /** Each level is a sublist of the level below. */
  lemma {:induction false} LevelSublist(c: Chain, q: nat, i: nat)
    requires q <= |c|
    ensures SublistOf(LevelFrom(c, q, i + 1), LevelFrom(c, q, i))
    decreases |c| - q
  {
    if q < |c| {
      LevelSublist(c, q + 1, i);
      var a, b := LevelFrom(c, q + 1, i + 1), LevelFrom(c, q + 1, i);
      if c[q].level >= i + 1 {
        assert ([c[q]] + a)[1..] == a && ([c[q]] + b)[1..] == b;
      } else if c[q].level >= i {
        assert ([c[q]] + b)[1..] == b;
      }
    }
  }

  lemma {:induction false} LevelMembers(c: Chain, q: nat, i: nat)
    requires q <= |c|
    ensures forall n :: n in LevelFrom(c, q, i) ==> n in c[q..]
    decreases |c| - q
  {
    if q < |c| {
      LevelMembers(c, q + 1, i);
      assert c[q..] == [c[q]] + c[q + 1..];
    }
  }

  /** Each level is strictly sorted. */
  lemma {:induction false} LevelSorted(c: Chain, q: nat, i: nat)
    requires 1 <= q <= |c| && Sorted(c)
    ensures forall a, b :: 0 <= a < b < |LevelFrom(c, q, i)| ==>
              Less(LevelFrom(c, q, i)[a].key, LevelFrom(c, q, i)[b].key)
    decreases |c| - q
  {
    if q < |c| {
      LevelSorted(c, q + 1, i);
      LevelMembers(c, q + 1, i);
      var rest := LevelFrom(c, q + 1, i);
      forall b | 0 <= b < |rest| ensures Less(c[q].key, rest[b].key) {
        assert rest[b] in c[q + 1..];
      }
    }
  }

  /** The link of a node is the head of the list on that level after it, and null if that is empty. */
  lemma {:induction false} LinkIsNext(c: Chain, q: nat, i: nat)
    requires q <= |c|
    ensures var l := LevelFrom(c, q, i); At(c, Succ(c, q, i)) == if l == [] then null else l[0]
    ensures var s := Succ(c, q, i); LevelFrom(c, q, i) == if s < |c| then [c[s]] + LevelFrom(c, s + 1, i) else []
    decreases |c| - q
  {
    if q < |c| && c[q].level < i {
      LinkIsNext(c, q + 1, i);
    }
  }
}
