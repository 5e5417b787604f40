/**
 * The protocol that a Raft cluster follows, seen through whole (uncompacted) logs and the history of
 * votes, elections and acknowledgements. The cluster of RaftCluster is shown to follow it.
 */
module RaftProtocol {
  import opened RaftTypes

  /** The leader of a term and its log, as it was when it last led. */
  datatype Led = Led(leader: nat, log: Log)

  type Terms = map<int, Led>

  datatype Member = Member(
    term: int,
    log: Log,                 // the whole log
    voted: map<int, int>,     // term -> the candidate voted for
    asked: map<int, Log>,     // term -> the log shown when asking for votes
    acked: map<int, int>      // term -> longest prefix of that term's leader log accepted
  )

  datatype Proto = Proto(members: seq<Member>, led: Terms)

  function Voters(ms: seq<Member>, c: int, t: int): set<nat> {
    set v: nat | v < |ms| && t in ms[v].voted && ms[v].voted[t] == c
  }

  /** Every entry of `l` was created by the leader of its term, at its place, not after term t. */
  ghost predicate Known(led: Terms, l: Log, t: int) {
    forall k :: 0 <= k < |l| ==>
      && l[k].index == k + 1
      && l[k].term <= t
      && l[k].term in led
      && k < |led[l[k].term].log|
      && led[l[k].term].log[k] == l[k]
  }

  ghost predicate MemberOk(m: Member, n: nat, led: Terms) {
    && 0 <= m.term
    && (forall t :: t in m.voted ==> 1 <= t <= m.term && 0 <= m.voted[t] < n)
    && (forall t :: t in m.asked ==> 1 <= t <= m.term && Known(led, m.asked[t], t - 1))
    && (forall t :: t in m.acked ==> t <= m.term && t in led && 0 <= m.acked[t] <= |led[t].log|)
    && Known(led, m.log, m.term)
  }

  /** The leader of term t reached t, has the votes of a majority, and holds known entries. */
  ghost predicate LedOk(p: Proto, t: int)
    requires t in p.led
  {
    && p.led[t].leader < |p.members|
    && 1 <= t <= p.members[p.led[t].leader].term
    && Majority(|p.members|, Voters(p.members, p.led[t].leader, t))
    && Known(p.led, p.led[t].log, t)
  }

  ghost predicate Sound(p: Proto) {
    && (forall i :: 0 <= i < |p.members| ==> MemberOk(p.members[i], |p.members|, p.led))
    && (forall t :: t in p.led ==> LedOk(p, t))
  }

  lemma MajoritiesMeet(n: nat, a: set<nat>, b: set<nat>) returns (v: nat)
    requires Majority(n, a) && Majority(n, b)
    requires forall x :: x in a || x in b ==> x < n
    ensures v in a && v in b
  {
    SizeBelow(n, a + b);
    assert |a + b| == |a| + |b| - |a * b|;
    v :| v in a * b;
  }

  lemma {:induction false} SizeBelow(n: nat, s: set<nat>)
    requires forall x :: x in s ==> x < n
    ensures |s| <= n
  {
    if n == 0 {
      assert s == {};
    } else {
      SizeBelow(n - 1, s - {n - 1});
    }
  }

  lemma SubsetSize<T>(a: set<T>, b: set<T>)
    requires a <= b
    ensures |a| <= |b|
  {
    assert b == a + (b - a);
    assert |b| == |a| + |b - a|;
  }

  // What every step of the protocol keeps: history only grows, and acknowledgements for a term only
  // come from nodes still in that term.

  ghost predicate LedGrows(a: Terms, b: Terms) {
    forall t :: t in a ==> t in b && a[t].leader == b[t].leader && a[t].log <= b[t].log
  }

  ghost predicate MemberGrows(m: Member, w: Member) {
    && m.term <= w.term
    && (forall t :: t in m.voted ==> t in w.voted && m.voted[t] == w.voted[t])
    && (forall t :: t in m.asked ==> t in w.asked && m.asked[t] == w.asked[t])
    && (forall t :: t in m.acked ==> t in w.acked && m.acked[t] <= w.acked[t])
    && (forall t :: t in w.acked && (t !in m.acked || m.acked[t] < w.acked[t]) ==> m.term <= t)
  }

  ghost predicate Grows(p: Proto, q: Proto) {
    && |p.members| == |q.members|
    && LedGrows(p.led, q.led)
    && (forall i :: 0 <= i < |p.members| ==> MemberGrows(p.members[i], q.members[i]))
  }

  lemma KnownGrows(a: Terms, b: Terms, l: Log, t: int, u: int)
    requires LedGrows(a, b) && Known(a, l, t) && t <= u
    ensures Known(b, l, u)
  {
  }

  lemma MemberOkGrows(m: Member, n: nat, a: Terms, b: Terms)
    requires MemberOk(m, n, a) && LedGrows(a, b)
    ensures MemberOk(m, n, b)
  {
    KnownGrows(a, b, m.log, m.term, m.term);
    forall t | t in m.asked ensures Known(b, m.asked[t], t - 1) {
      KnownGrows(a, b, m.asked[t], t - 1, t - 1);
    }
  }

  lemma LedOkGrows(p: Proto, q: Proto, t: int)
    requires Grows(p, q) && t in p.led && LedOk(p, t) && q.led[t] == p.led[t]
    ensures LedOk(q, t)
  {
    var c := p.led[t].leader;
    SubsetSize(Voters(p.members, c, t), Voters(q.members, c, t));
    KnownGrows(p.led, q.led, p.led[t].log, t, t);
  }

  /** A step of one member that leaves the led logs alone. */
  lemma MemberStepSound(p: Proto, i: nat, m: Member)
    requires Sound(p) && i < |p.members|
    requires MemberGrows(p.members[i], m) && MemberOk(m, |p.members|, p.led)
    ensures var q := p.(members := p.members[i := m]);
            Grows(p, q) && Sound(q)
  {
    var q := p.(members := p.members[i := m]);
    assert Grows(p, q);
    forall t | t in q.led ensures LedOk(q, t) { LedOkGrows(p, q, t); }
  }

  /** A step that gives term t a new log, led by a member whose log it is. */
  lemma LedStepSound(p: Proto, t: int, c: nat, l: Log)
    requires Sound(p) && c < |p.members| && 1 <= t <= p.members[c].term
    requires t in p.led ==> p.led[t].leader == c && p.led[t].log <= l
    requires Majority(|p.members|, Voters(p.members, c, t))
    requires Known(p.led[t := Led(c, l)], l, t)
    ensures var q := p.(led := p.led[t := Led(c, l)]);
            Grows(p, q) && Sound(q)
  {
    var q := p.(led := p.led[t := Led(c, l)]);
    assert LedGrows(p.led, q.led);
    forall i | 0 <= i < |q.members| ensures MemberOk(q.members[i], |q.members|, q.led) {
      MemberOkGrows(p.members[i], |p.members|, p.led, q.led);
    }
    forall u | u in q.led ensures LedOk(q, u) {
      if u != t { LedOkGrows(p, q, u); }
    }
  }

  // The steps of the protocol.

  function Bump(p: Proto, i: nat, t: int): Proto
    requires i < |p.members|
  {
    p.(members := p.members[i := p.members[i].(term := t)])
  }

  function Ask(p: Proto, i: nat): Proto
    requires i < |p.members|
  {
    var m := p.members[i];
    var t := m.term + 1;
    p.(members := p.members[i := m.(term := t, voted := m.voted[t := i], asked := m.asked[t := m.log])])
  }

  function Grant(p: Proto, v: nat, t: int, c: nat): Proto
    requires v < |p.members|
  {
    p.(members := p.members[v := p.members[v].(voted := p.members[v].voted[t := c])])
  }

  function Elect(p: Proto, c: nat, t: int): Proto
    requires c < |p.members|
  {
    p.(led := p.led[t := Led(c, p.members[c].log)])
  }

  function Extended(l: Log, t: int, cmd: Command): Log {
    l + [Entry(cmd, t, |l| + 1)]
  }

  function Extend(p: Proto, c: nat, t: int, cmd: Command): Proto
    requires c < |p.members|
  {
    var l := Extended(p.members[c].log, t, cmd);
    Proto(p.members[c := p.members[c].(log := l)], p.led[t := Led(c, l)])
  }

  /** Node i writes the segment (prev, hi] of the log of term t's leader over its own. */
  function Write(p: Proto, i: nat, t: int, prev: nat, hi: nat): Proto
    requires i < |p.members| && t in p.led && prev <= hi <= |p.led[t].log| && prev <= |p.members[i].log|
  {
    var m := p.members[i];
    var a := if t in m.acked && hi < m.acked[t] then m.acked[t] else hi;
    p.(members := p.members[i :=
      m.(log := Overlay(m.log, prev, p.led[t].log[prev..hi]), acked := m.acked[t := a])])
  }

  /** Node i replaces the front of its log by the prefix s covered by a snapshot. */
  function Cover(p: Proto, i: nat, s: Log): Proto
    requires i < |p.members|
  {
    p.(members := p.members[i := p.members[i].(log := Overlay(p.members[i].log, 0, s))])
  }

  lemma BumpSound(p: Proto, i: nat, t: int)
    requires Sound(p) && i < |p.members| && p.members[i].term <= t
    ensures Grows(p, Bump(p, i, t)) && Sound(Bump(p, i, t))
  {
    KnownGrows(p.led, p.led, p.members[i].log, p.members[i].term, t);
    MemberStepSound(p, i, p.members[i].(term := t));
  }

  lemma AskSound(p: Proto, i: nat)
    requires Sound(p) && i < |p.members|
    ensures Grows(p, Ask(p, i)) && Sound(Ask(p, i))
  {
    var m := p.members[i];
    KnownGrows(p.led, p.led, m.log, m.term, m.term + 1);
    MemberStepSound(p, i, Ask(p, i).members[i]);
  }

  lemma GrantSound(p: Proto, v: nat, t: int, c: nat)
    requires Sound(p) && v < |p.members| && c < |p.members| && 1 <= t == p.members[v].term
    requires t in p.members[v].voted ==> p.members[v].voted[t] == c
    ensures Grows(p, Grant(p, v, t, c)) && Sound(Grant(p, v, t, c))
  {
    MemberStepSound(p, v, Grant(p, v, t, c).members[v]);
  }

  /** Two candidates cannot both collect a majority in one term, so an elected term has no other winner. */
  lemma {:induction false} OneWinner(p: Proto, c: int, t: int)
    requires Sound(p) && Majority(|p.members|, Voters(p.members, c, t)) && t in p.led
    ensures p.led[t].leader == c
  {
    assert LedOk(p, t);
    var v := MajoritiesMeet(|p.members|, Voters(p.members, c, t), Voters(p.members, p.led[t].leader, t));
  }

  lemma ElectSound(p: Proto, c: nat, t: int)
    requires Sound(p) && c < |p.members| && t !in p.led && 1 <= t == p.members[c].term
    requires Majority(|p.members|, Voters(p.members, c, t))
    ensures Grows(p, Elect(p, c, t)) && Sound(Elect(p, c, t))
  {
    KnownGrows(p.led, Elect(p, c, t).led, p.members[c].log, t, t);
    LedStepSound(p, t, c, p.members[c].log);
  }

  /** The leader's own log after one more entry of its term. */
  lemma ExtendedKnown(led: Terms, c: nat, l: Log, t: int, cmd: Command)
    requires t in led && led[t] == Led(c, l) && Known(led, l, t)
    ensures Known(led[t := Led(c, Extended(l, t, cmd))], Extended(l, t, cmd), t)
    ensures LedGrows(led, led[t := Led(c, Extended(l, t, cmd))])
  {
    var more := led[t := Led(c, Extended(l, t, cmd))];
    assert LedGrows(led, more);
    KnownGrows(led, more, l, t, t);
  }

  lemma ExtendedMember(m: Member, n: nat, led: Terms, t: int, l: Log)
    requires MemberOk(m, n, led) && m.term == t && Known(led, l, t)
    ensures MemberGrows(m, m.(log := l)) && MemberOk(m.(log := l), n, led)
  {
    hide Known;
  }

  lemma ExtendSound(p: Proto, c: nat, t: int, cmd: Command)
    requires Sound(p) && c < |p.members| && p.members[c].term == t
    requires t in p.led && p.led[t] == Led(c, p.members[c].log)
    ensures Grows(p, Extend(p, c, t, cmd)) && Sound(Extend(p, c, t, cmd))
  {
    var m := p.members[c];
    var l := Extended(m.log, t, cmd);
    var q := p.(led := p.led[t := Led(c, l)]);
    assert LedOk(p, t);
    ExtendedKnown(p.led, c, m.log, t, cmd);
    hide Known, Extended, MemberOk, MemberGrows;
    LedStepSound(p, t, c, l);
    ExtendedMember(m, |p.members|, q.led, t, l);
    MemberStepSound(q, c, m.(log := l));
  }

  /** Of a log overwritten from `prev` on, the part before `prev` and behind the segment is the old log. */
  lemma OverlayKeeps(l: Log, prev: nat, es: Log, k: nat)
    requires prev <= |l| && (k < prev || prev + |es| <= k < |l|)
    ensures k < |Overlay(l, prev, es)| && Overlay(l, prev, es)[k] == l[k]
  {
    if k >= prev { assert l[prev + |es|..][k - prev - |es|] == l[k]; }
  }

  /** The overwritten segment is that of the other log. */
  lemma OverlayWrites(l: Log, prev: nat, es: Log, s: Log, k: nat)
    requires prev <= |l| && prev + |es| <= |s| && es == s[prev..prev + |es|] && prev <= k < prev + |es|
    ensures k < |Overlay(l, prev, es)| && Overlay(l, prev, es)[k] == s[k]
  {
    assert es[k - prev] == s[k];
  }

  lemma OverlayKnown(led: Terms, l: Log, prev: nat, es: Log, s: Log, t: int)
    requires prev <= |l| && Known(led, l, t) && Known(led, s, t)
    requires prev + |es| <= |s| && es == s[prev..prev + |es|]
    ensures Known(led, Overlay(l, prev, es), t)
  {
    var m := Overlay(l, prev, es);
    forall k | 0 <= k < |m| ensures (k < |l| && m[k] == l[k]) || (k < |s| && m[k] == s[k]) {
      if prev <= k < prev + |es| { OverlayWrites(l, prev, es, s, k); } else { OverlayKeeps(l, prev, es, k); }
    }
  }

  lemma WrittenMember(m: Member, n: nat, led: Terms, t: int, l: Log, hi: nat)
    requires MemberOk(m, n, led) && t == m.term && t in led && hi <= |led[t].log| && Known(led, l, t)
    ensures var w := m.(log := l, acked := m.acked[t := if t in m.acked && hi < m.acked[t] then m.acked[t] else hi]);
            MemberGrows(m, w) && MemberOk(w, n, led)
  {
    hide Known;
  }

  lemma WriteSound(p: Proto, i: nat, t: int, prev: nat, hi: nat)
    requires Sound(p) && i < |p.members| && t == p.members[i].term && t in p.led
    requires prev <= hi <= |p.led[t].log| && prev <= |p.members[i].log|
    ensures Grows(p, Write(p, i, t, prev, hi)) && Sound(Write(p, i, t, prev, hi))
  {
    var m, s := p.members[i], p.led[t].log;
    assert LedOk(p, t) && MemberOk(m, |p.members|, p.led);
    OverlayKnown(p.led, m.log, prev, s[prev..hi], s, t);
    hide Known, Overlay, LedOk, MemberGrows;
    WrittenMember(m, |p.members|, p.led, t, Overlay(m.log, prev, s[prev..hi]), hi);
    hide MemberOk;
    MemberStepSound(p, i, Write(p, i, t, prev, hi).members[i]);
  }

  lemma CoverSound(p: Proto, i: nat, s: Log)
    requires Sound(p) && i < |p.members| && Known(p.led, s, p.members[i].term)
    ensures Grows(p, Cover(p, i, s)) && Sound(Cover(p, i, s))
  {
    OverlayKnown(p.led, p.members[i].log, 0, s, s, p.members[i].term);
    MemberStepSound(p, i, Cover(p, i, s).members[i]);
  }
}
