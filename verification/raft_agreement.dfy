/**
 * Agreement: in the runs in which every overwrite of a conflicting entry reaches the end of the
 * follower's log, and every snapshot that keeps a suffix agrees with the entry it lands on, logs match,
 * leaders are complete, and committed prefixes never differ.
 */
module RaftAgreement {
  import opened RaftTypes
  import opened RaftProtocol

  /** `l` is a known log whose every prefix is the prefix of the log led in the term of its last entry. */
  ghost predicate Matched(led: Terms, l: Log, t: int) {
    && Known(led, l, t)
    && forall k :: 0 <= k < |l| ==> l[k].term in led && l[..k + 1] <= led[l[k].term].log
  }

  predicate HasAcked(p: Proto, v: nat, t: int, k: nat)
    requires v < |p.members|
  {
    || (t in p.led && p.led[t].leader == v)
    || (t in p.members[v].acked && k <= p.members[v].acked[t])
  }

  /** The nodes that accepted the first k entries of term t, or may still do so. */
  function Helpers(p: Proto, t: int, k: nat): set<nat> {
    set v: nat | v < |p.members| && (HasAcked(p, v, t, k) || p.members[v].term <= t)
  }

  function Ackers(p: Proto, t: int, k: nat): set<nat> {
    set v: nat | v < |p.members| && HasAcked(p, v, t, k)
  }

  /** The entry with index k of term t's leader was created in term t. */
  predicate OwnEntry(led: Terms, t: int, k: nat) {
    t in led && 1 <= k <= |led[t].log| && led[t].log[k - 1].term == t
  }

  /** The first k entries of term t can still be chosen. */
  predicate Choosable(p: Proto, t: int, k: nat) {
    OwnEntry(p.led, t, k) && Majority(|p.members|, Helpers(p, t, k))
  }

  /** A majority accepted the first k entries of term t, the last of them created in term t. */
  predicate Chosen(p: Proto, t: int, k: nat) {
    OwnEntry(p.led, t, k) && Majority(|p.members|, Ackers(p, t, k))
  }

  /** `s` is a prefix of something chosen in a term not after t. */
  ghost predicate Committed(p: Proto, s: Log, t: int) {
    s == [] || exists u, k: nat :: u <= t && Chosen(p, u, k) && s <= p.led[u].log[..k]
  }

  ghost predicate LogsMatched(p: Proto) {
    && (forall i :: 0 <= i < |p.members| ==> MemberMatched(p.members[i], p.led))
    && (forall t :: t in p.led ==> Matched(p.led, p.led[t].log, t))
  }

  ghost predicate MemberMatched(m: Member, led: Terms) {
    && Matched(led, m.log, m.term)
    && (forall t :: t in m.asked ==> Matched(led, m.asked[t], t - 1))
  }

  /** What may still be chosen in a term is in the log of every later leader. */
  ghost predicate LeadersComplete(p: Proto) {
    forall t, u, k: nat :: Choosable(p, t, k) && u in p.led && t < u ==> p.led[t].log[..k] <= p.led[u].log
  }

  /** Who accepted it still has it. */
  ghost predicate AckerKeeps(p: Proto, v: nat)
    requires v < |p.members|
  {
    forall t, k: nat :: Choosable(p, t, k) && HasAcked(p, v, t, k) ==> p.led[t].log[..k] <= p.members[v].log
  }

  /** A candidate that had it when it asked for votes still has it. */
  ghost predicate CandidateKeeps(p: Proto, v: nat)
    requires v < |p.members|
  {
    var m := p.members[v];
    m.term in m.asked ==>
      forall t, k: nat :: Choosable(p, t, k) && t < m.term && p.led[t].log[..k] <= m.asked[m.term]
        ==> p.led[t].log[..k] <= m.log
  }

  /** Candidate c showed a log with the prefix s when it asked for votes in term u. */
  predicate Showed(p: Proto, c: int, u: int, s: Log) {
    0 <= c < |p.members| && u in p.members[c].asked && s <= p.members[c].asked[u]
  }

  /** Who accepted it votes later only for candidates that have it. */
  ghost predicate VoterDemands(p: Proto, v: nat)
    requires v < |p.members|
  {
    var m := p.members[v];
    forall u, t, k: nat :: u in m.voted && Choosable(p, t, k) && t < u && HasAcked(p, v, t, k)
      ==> Showed(p, m.voted[u], u, p.led[t].log[..k])
  }

  ghost predicate MemberAgrees(p: Proto, v: nat)
    requires v < |p.members|
  {
    AckerKeeps(p, v) && CandidateKeeps(p, v) && VoterDemands(p, v)
  }

  ghost predicate Agreed(p: Proto) {
    && Sound(p)
    && LogsMatched(p)
    && LeadersComplete(p)
    && (forall v :: 0 <= v < |p.members| ==> MemberAgrees(p, v))
  }

  // Monotonicity.

  lemma MatchedGrows(a: Terms, b: Terms, l: Log, t: int, u: int)
    requires LedGrows(a, b) && Matched(a, l, t) && t <= u
    ensures Matched(b, l, u)
  {
    KnownGrows(a, b, l, t, u);
  }

  lemma MemberMatchedGrows(m: Member, a: Terms, b: Terms)
    requires LedGrows(a, b) && MemberMatched(m, a)
    ensures MemberMatched(m, b)
  {
    MatchedGrows(a, b, m.log, m.term, m.term);
    forall t | t in m.asked ensures Matched(b, m.asked[t], t - 1) {
      MatchedGrows(a, b, m.asked[t], t - 1, t - 1);
    }
  }

  lemma MatchedPrefix(led: Terms, l: Log, t: int, k: nat)
    requires Matched(led, l, t) && k <= |l|
    ensures Matched(led, l[..k], t)
  {
    var m := l[..k];
    forall j | 0 <= j < k ensures m[..j + 1] <= led[m[j].term].log {
      assert m[..j + 1] == l[..j + 1];
    }
  }

  /** Nothing becomes choosable later. */
  lemma ChoosableEarlier(p: Proto, q: Proto, t: int, k: nat)
    requires Grows(p, q) && t in p.led && k <= |p.led[t].log| && Choosable(q, t, k)
    ensures Choosable(p, t, k) && p.led[t].log[..k] == q.led[t].log[..k]
  {
    assert Helpers(q, t, k) <= Helpers(p, t, k);
    SubsetSize(Helpers(q, t, k), Helpers(p, t, k));
  }

  lemma ChosenLater(p: Proto, q: Proto, t: int, k: nat)
    requires Grows(p, q) && Chosen(p, t, k)
    ensures Chosen(q, t, k) && p.led[t].log[..k] == q.led[t].log[..k]
  {
    assert Ackers(p, t, k) <= Ackers(q, t, k);
    SubsetSize(Ackers(p, t, k), Ackers(q, t, k));
  }

  lemma ChosenChoosable(p: Proto, t: int, k: nat)
    requires Chosen(p, t, k)
    ensures Choosable(p, t, k)
  {
    assert Ackers(p, t, k) <= Helpers(p, t, k);
    SubsetSize(Ackers(p, t, k), Helpers(p, t, k));
  }

  lemma CommittedGrows(p: Proto, q: Proto, s: Log, t: int, u: int)
    requires Grows(p, q) && Committed(p, s, t) && t <= u
    ensures Committed(q, s, u)
  {
    if s != [] {
      var w, k: nat :| w <= t && Chosen(p, w, k) && s <= p.led[w].log[..k];
      ChosenLater(p, q, w, k);
    }
  }

  lemma CommittedPrefix(p: Proto, s: Log, t: int, r: Log)
    requires Committed(p, s, t) && r <= s
    ensures Committed(p, r, t)
  {
    if r != [] {
      var w, k: nat :| w <= t && Chosen(p, w, k) && s <= p.led[w].log[..k];
      assert r <= p.led[w].log[..k];
    }
  }

  /** Two logs that hold an entry of the same term at one index agree up to it. */
  lemma SameEntrySamePrefix(led: Terms, a: Log, b: Log, t: int, u: int, k: nat)
    requires Matched(led, a, t) && Matched(led, b, u)
    requires 1 <= k <= |a| && k <= |b| && a[k - 1].term == b[k - 1].term
    ensures a[..k] == b[..k]
  {
    assert a[..k - 1 + 1] <= led[a[k - 1].term].log;
    assert b[..k - 1 + 1] <= led[b[k - 1].term].log;
  }

  /** Terms never decrease along a matched log. */
  lemma TermsRise(p: Proto, l: Log, t: int, j: nat, k: nat)
    requires LogsMatched(p) && Matched(p.led, l, t) && j <= k < |l|
    ensures l[j].term <= l[k].term
  {
    var u := l[k].term;
    assert l[..k + 1] <= p.led[u].log;
    assert l[j] == l[..k + 1][j] == p.led[u].log[j];
    assert Matched(p.led, p.led[u].log, u);
  }

  /** A prefix of the choosable is in every log led in that term or later. */
  lemma InLaterLed(p: Proto, s: Log, t: int, k: nat, u: int)
    requires LeadersComplete(p)
    requires Choosable(p, t, k) && s <= p.led[t].log[..k] && t <= u && u in p.led
    ensures s <= p.led[u].log
  {
    assert p.led[t].log[..k] <= p.led[t].log;
  }

  // Overwriting under the guard.

  /** The batch differs in term from an entry that the log already has. */
  ghost predicate Conflicts(l: Log, prev: nat, es: Log) {
    exists j :: 0 <= j < |es| && prev + j < |l| && l[prev + j].term != es[j].term
  }

  /** An overwrite of a conflicting entry leaves no stale tail. */
  ghost predicate ReachesEnd(l: Log, prev: nat, es: Log) {
    Conflicts(l, prev, es) ==> |l| <= prev + |es|
  }

  /** The overlaid log is the leader's prefix, or the old log that already had that prefix. */
  lemma OverlayMatched(led: Terms, l: Log, t: int, s: Log, u: int, prev: nat, hi: nat)
    requires Matched(led, l, t) && Matched(led, s, u)
    requires prev <= hi <= |s| && prev <= |l|
    requires TermOf(l, prev) == TermOf(s, prev)
    requires ReachesEnd(l, prev, s[prev..hi])
    ensures var m := Overlay(l, prev, s[prev..hi]);
            && s[..hi] <= m
            && (m == s[..hi] || m == l)
  {
    var es := s[prev..hi];
    var m := Overlay(l, prev, es);
    if prev > 0 { SameEntrySamePrefix(led, l, s, t, u, prev); }
    assert l[..prev] == s[..prev];
    assert s[..hi] == s[..prev] + es;
    if |l| <= hi {
      assert m == s[..hi];
    } else if hi == prev {
      assert m == l;
    } else {
      assert l[prev + (hi - prev - 1)].term == es[hi - prev - 1].term;
      SameEntrySamePrefix(led, l, s, t, u, hi);
      assert m == l;
    }
  }

  /** A prefix of the log on which the written entries agree survives the write. */
  lemma OverlayKeeps(l: Log, prev: nat, es: Log, c: Log)
    requires prev <= |l| && c <= l
    requires forall j :: 0 <= j < |es| && prev + j < |c| ==> es[j] == c[prev + j]
    ensures c <= Overlay(l, prev, es)
  {
    var m := Overlay(l, prev, es);
    forall k | 0 <= k < |c| ensures m[k] == c[k] {
      if prev <= k < prev + |es| {
        assert m[k] == es[k - prev];
      } else if prev + |es| <= k {
        assert m[k] == l[prev + |es|..][k - prev - |es|];
      }
    }
  }

  lemma SegmentKeeps(l: Log, prev: nat, s: Log, hi: nat, c: Log)
    requires prev <= hi <= |s| && prev <= |l| && c <= l && c <= s
    ensures c <= Overlay(l, prev, s[prev..hi])
  {
    OverlayKeeps(l, prev, s[prev..hi], c);
  }

  // The steps keep agreement.

  /** Member i keeps what it had of the choosable. */
  ghost predicate Keeps(p: Proto, i: nat, m: Member)
    requires i < |p.members|
  {
    forall t, k: nat :: Choosable(p, t, k) && t <= p.members[i].term && p.led[t].log[..k] <= p.members[i].log
      ==> p.led[t].log[..k] <= m.log
  }

  /** A member other than the one that moved agrees as before. */
  lemma OtherAgrees(p: Proto, q: Proto, v: nat)
    requires Agreed(p) && Grows(p, q) && q.led == p.led
    requires v < |p.members| && q.members[v] == p.members[v]
    ensures MemberAgrees(q, v)
  {
    assert MemberAgrees(p, v);
    forall t, k: nat | Choosable(q, t, k) ensures Choosable(p, t, k) {
      ChoosableEarlier(p, q, t, k);
    }
    forall u, t, k: nat | u in q.members[v].voted && Choosable(q, t, k) && t < u && HasAcked(q, v, t, k)
      ensures Showed(q, q.members[v].voted[u], u, q.led[t].log[..k])
    {
      assert HasAcked(p, v, t, k);
      assert Showed(p, p.members[v].voted[u], u, p.led[t].log[..k]);
    }
  }

  lemma MovedAgrees(p: Proto, q: Proto, i: nat)
    requires Agreed(p) && Grows(p, q) && Sound(q) && q.led == p.led && i < |p.members|
    requires Keeps(p, i, q.members[i])
    requires forall t, k: nat :: Choosable(p, t, k) && HasAcked(q, i, t, k)
               ==> HasAcked(p, i, t, k) || p.led[t].log[..k] <= q.members[i].log
    requires forall t :: t in q.members[i].asked && t !in p.members[i].asked ==> q.members[i].asked[t] == q.members[i].log
    requires forall u, t, k: nat ::
               u in q.members[i].voted && u !in p.members[i].voted && Choosable(p, t, k) && t < u && HasAcked(q, i, t, k)
               ==> Showed(q, q.members[i].voted[u], u, p.led[t].log[..k])
    ensures MemberAgrees(q, i)
  {
    assert MemberAgrees(p, i);
    assert MemberOk(p.members[i], |p.members|, p.led);
    var m, w := p.members[i], q.members[i];
    forall t, k: nat | Choosable(q, t, k) ensures Choosable(p, t, k) {
      ChoosableEarlier(p, q, t, k);
    }
    forall t, k: nat | Choosable(q, t, k) && HasAcked(q, i, t, k) ensures q.led[t].log[..k] <= w.log {
      if HasAcked(p, i, t, k) {
        assert LedOk(p, t);
        assert p.led[t].log[..k] <= m.log;
      }
    }
    if w.term in w.asked && w.term in m.asked {
      assert m.term == w.term;
      assert CandidateKeeps(p, i);
    }
    forall u, t, k: nat | u in w.voted && Choosable(q, t, k) && t < u && HasAcked(q, i, t, k)
      ensures Showed(q, w.voted[u], u, q.led[t].log[..k])
    {
      if u in m.voted {
        assert HasAcked(p, i, t, k);
        assert Showed(p, m.voted[u], u, p.led[t].log[..k]);
      }
    }
  }

  lemma StepAgreed(p: Proto, q: Proto, i: nat)
    requires Agreed(p) && Grows(p, q) && Sound(q) && i < |p.members| && MemberMatched(q.members[i], p.led)
    requires q == p.(members := p.members[i := q.members[i]])
    requires MemberAgrees(q, i)
    ensures Agreed(q)
  {
    forall t, k: nat | Choosable(q, t, k) ensures Choosable(p, t, k) {
      ChoosableEarlier(p, q, t, k);
    }
    assert LeadersComplete(q);
    forall v | 0 <= v < |q.members| ensures MemberAgrees(q, v) {
      if v != i { OtherAgrees(p, q, v); }
    }
  }

  lemma BumpAgreed(p: Proto, i: nat, t: int)
    requires Agreed(p) && i < |p.members| && p.members[i].term <= t
    ensures Grows(p, Bump(p, i, t)) && Agreed(Bump(p, i, t))
  {
    var q := Bump(p, i, t);
    BumpSound(p, i, t);
    MatchedGrows(p.led, p.led, p.members[i].log, p.members[i].term, t);
    MovedAgrees(p, q, i);
    StepAgreed(p, q, i);
  }

  lemma AskAgreed(p: Proto, i: nat)
    requires Agreed(p) && i < |p.members|
    ensures Grows(p, Ask(p, i)) && Agreed(Ask(p, i))
  {
    hide Known, LeadersComplete, VoterDemands;
    var q := Ask(p, i);
    AskSound(p, i);
    var m := p.members[i];
    MatchedGrows(p.led, p.led, m.log, m.term, m.term + 1);
    assert AckerKeeps(p, i) by { assert MemberAgrees(p, i); }
    MovedAgrees(p, q, i);
    StepAgreed(p, q, i);
  }

  /** Raft's comparison of logs: by last term, then by length. */
  predicate UpToDateWith(a: Log, b: Log) {
    TermOf(a, |a|) > TermOf(b, |b|) || (TermOf(a, |a|) == TermOf(b, |b|) && |a| >= |b|)
  }

  /** The log led in the term of its last entry goes on from a matched log. */
  lemma LedOnward(led: Terms, a: Log, t: int)
    requires Matched(led, a, t) && a != []
    ensures TermOf(a, |a|) in led && a <= led[TermOf(a, |a|)].log
  {
    assert a[..|a| - 1 + 1] == a;
  }

  lemma ChoosableEnds(p: Proto, t: int, k: nat)
    requires Sound(p) && Choosable(p, t, k)
    ensures t in p.led && 1 <= t && 1 <= k <= |p.led[t].log| && p.led[t].log[k - 1].term == t
    ensures forall j :: 0 <= j < |p.led[t].log| ==> p.led[t].log[j].term <= t
  {
    assert LedOk(p, t);
  }

  /** A log as up to date as one that holds the choosable holds it too. */
  lemma UpToDateHolds(p: Proto, a: Log, b: Log, ta: int, tb: int, t: int, k: nat)
    requires Sound(p) && LogsMatched(p) && LeadersComplete(p)
    requires Matched(p.led, a, ta) && Matched(p.led, b, tb) && UpToDateWith(a, b)
    requires Choosable(p, t, k) && p.led[t].log[..k] <= b
    ensures p.led[t].log[..k] <= a
  {
    hide Sound, LogsMatched, LeadersComplete, Matched, Helpers;
    var c := p.led[t].log[..k];
    ChoosableEnds(p, t, k);
    assert b[k - 1] == c[k - 1];
    TermsRise(p, b, tb, k - 1, |b| - 1);
    var u := TermOf(a, |a|);
    assert t <= u && a != [];
    LedOnward(p.led, a, ta);
    InLaterLed(p, c, t, k, u);
  }

  /** A vote goes to a candidate that has whatever the voter accepted and may still be chosen. */
  lemma VoteDemands(p: Proto, v: nat, t: int, c: nat)
    requires Agreed(p) && v < |p.members| && c < |p.members| && t == p.members[v].term
    requires t in p.members[c].asked && UpToDateWith(p.members[c].asked[t], p.members[v].log)
    ensures forall u, k: nat :: Choosable(p, u, k) && HasAcked(p, v, u, k)
              ==> p.led[u].log[..k] <= p.members[c].asked[t]
  {
    hide Known, Sound, LeadersComplete, Matched, CandidateKeeps, VoterDemands, Helpers, UpToDateWith;
    assert MemberAgrees(p, v);
    assert MemberMatched(p.members[v], p.led) && MemberMatched(p.members[c], p.led);
    forall u, k: nat | Choosable(p, u, k) && HasAcked(p, v, u, k)
      ensures p.led[u].log[..k] <= p.members[c].asked[t]
    {
      UpToDateHolds(p, p.members[c].asked[t], p.members[v].log, t - 1, t, u, k);
    }
  }

  lemma GrantDemands(p: Proto, v: nat, t: int, c: nat)
    requires Agreed(p) && v < |p.members| && c < |p.members| && 1 <= t == p.members[v].term
    requires t in p.members[c].asked && UpToDateWith(p.members[c].asked[t], p.members[v].log)
    ensures var q := Grant(p, v, t, c);
            forall u, s, k: nat ::
              u in q.members[v].voted && u !in p.members[v].voted && Choosable(p, s, k) && s < u && HasAcked(q, v, s, k)
              ==> Showed(q, q.members[v].voted[u], u, p.led[s].log[..k])
  {
    var q := Grant(p, v, t, c);
    VoteDemands(p, v, t, c);
    assert q.members[c].asked == p.members[c].asked;
    forall s, k: nat | Choosable(p, s, k) && HasAcked(q, v, s, k) ensures Showed(q, c, t, p.led[s].log[..k]) {
      assert HasAcked(p, v, s, k);
    }
  }

  lemma GrantMoves(p: Proto, v: nat, t: int, c: nat)
    requires Agreed(p) && v < |p.members| && c < |p.members| && 1 <= t == p.members[v].term
    requires t in p.members[v].voted ==> p.members[v].voted[t] == c
    requires t in p.members[c].asked && UpToDateWith(p.members[c].asked[t], p.members[v].log)
    requires Grows(p, Grant(p, v, t, c)) && Sound(Grant(p, v, t, c))
    ensures MemberAgrees(Grant(p, v, t, c), v)
  {
    var q := Grant(p, v, t, c);
    GrantDemands(p, v, t, c);
    assert forall u, k: nat :: HasAcked(q, v, u, k) ==> HasAcked(p, v, u, k);
    MovedAgrees(p, q, v);
  }

  lemma GrantAgreed(p: Proto, v: nat, t: int, c: nat)
    requires Agreed(p) && v < |p.members| && c < |p.members| && 1 <= t == p.members[v].term
    requires t in p.members[v].voted ==> p.members[v].voted[t] == c
    requires t in p.members[c].asked && UpToDateWith(p.members[c].asked[t], p.members[v].log)
    ensures Grows(p, Grant(p, v, t, c)) && Agreed(Grant(p, v, t, c))
  {
    GrantSound(p, v, t, c);
    GrantMoves(p, v, t, c);
    assert MemberMatched(p.members[v], p.led);
    StepAgreed(p, Grant(p, v, t, c), v);
  }

  /** A leader elected after t holds whatever may still be chosen in t. */
  lemma ElectedComplete(p: Proto, c: nat, u: int, t: int, k: nat)
    requires Agreed(p) && c < |p.members| && p.members[c].term == u && Majority(|p.members|, Voters(p.members, c, u))
    requires Choosable(p, t, k) && t < u
    ensures p.led[t].log[..k] <= p.members[c].log
  {
    var v := MajoritiesMeet(|p.members|, Voters(p.members, c, u), Helpers(p, t, k));
    assert MemberOk(p.members[v], |p.members|, p.led);
    assert MemberAgrees(p, v) && MemberAgrees(p, c);
    assert HasAcked(p, v, t, k);
    assert Showed(p, c, u, p.led[t].log[..k]);
  }

  /** Term t's leader has created an entry. */
  lemma NoOwnEntry(p: Proto, c: nat, t: int, k: nat)
    requires Sound(p) && c < |p.members| && t !in p.led
    ensures !OwnEntry(p.led[t := Led(c, p.members[c].log)], t, k)
  {
    assert MemberOk(p.members[c], |p.members|, p.led);
  }

  lemma ElectAgreed(p: Proto, c: nat, t: int)
    requires Agreed(p) && c < |p.members| && t !in p.led && 1 <= t == p.members[c].term
    requires Majority(|p.members|, Voters(p.members, c, t))
    ensures Grows(p, Elect(p, c, t)) && Agreed(Elect(p, c, t))
  {
    var q := Elect(p, c, t);
    ElectSound(p, c, t);
    forall i | 0 <= i < |q.members| ensures MemberMatched(q.members[i], q.led) {
      MemberMatchedGrows(p.members[i], p.led, q.led);
    }
    forall u | u in q.led ensures Matched(q.led, q.led[u].log, u) {
      MatchedGrows(p.led, q.led, q.led[u].log, u, u);
    }
    forall u, k: nat | Choosable(q, u, k) ensures u != t && Choosable(p, u, k) {
      NoOwnEntry(p, c, t, k);
      ChoosableEarlier(p, q, u, k);
    }
    forall u, k: nat | Choosable(p, u, k) && u < t ensures p.led[u].log[..k] <= p.members[c].log {
      ElectedComplete(p, c, t, u, k);
    }
    assert LeadersComplete(q);
    forall v | 0 <= v < |q.members| ensures MemberAgrees(q, v) {
      ElectOther(p, q, t, v);
    }
  }

  lemma ElectOther(p: Proto, q: Proto, t: int, v: nat)
    requires Agreed(p) && v < |p.members| && q.members == p.members
    requires t !in p.led && t in q.led && q.led == p.led[t := q.led[t]]
    requires forall u, k: nat :: Choosable(q, u, k) ==> u != t && Choosable(p, u, k)
    ensures MemberAgrees(q, v)
  {
    assert MemberAgrees(p, v);
    forall u, s, k: nat | u in q.members[v].voted && Choosable(q, s, k) && s < u && HasAcked(q, v, s, k)
      ensures Showed(q, q.members[v].voted[u], u, q.led[s].log[..k])
    {
      assert HasAcked(p, v, s, k);
      assert Showed(p, p.members[v].voted[u], u, p.led[s].log[..k]);
    }
  }

  lemma WriteKeeps(p: Proto, i: nat, t: int, prev: nat, hi: nat)
    requires LeadersComplete(p) && i < |p.members| && t == p.members[i].term && t in p.led
    requires prev <= hi <= |p.led[t].log| && prev <= |p.members[i].log|
    ensures Keeps(p, i, Write(p, i, t, prev, hi).members[i])
  {
    var l, s := p.members[i].log, p.led[t].log;
    forall u, k: nat | Choosable(p, u, k) && u <= t && p.led[u].log[..k] <= l
      ensures p.led[u].log[..k] <= Overlay(l, prev, s[prev..hi])
    {
      InLaterLed(p, p.led[u].log[..k], u, k, t);
      SegmentKeeps(l, prev, s, hi, p.led[u].log[..k]);
    }
  }

  lemma WriteAcks(p: Proto, i: nat, t: int, prev: nat, hi: nat)
    requires i < |p.members| && t in p.led
    requires prev <= hi <= |p.led[t].log| && prev <= |p.members[i].log|
    requires p.led[t].log[..hi] <= Write(p, i, t, prev, hi).members[i].log
    ensures var q := Write(p, i, t, prev, hi);
            forall u, k: nat :: Choosable(p, u, k) && HasAcked(q, i, u, k)
              ==> HasAcked(p, i, u, k) || p.led[u].log[..k] <= q.members[i].log
  {
    var q := Write(p, i, t, prev, hi);
    forall u, k: nat | Choosable(p, u, k) && HasAcked(q, i, u, k) && !HasAcked(p, i, u, k)
      ensures p.led[u].log[..k] <= q.members[i].log
    {
      assert u == t && k <= hi;
      assert p.led[t].log[..k] <= p.led[t].log[..hi];
    }
  }

  lemma WriteMatched(p: Proto, i: nat, t: int, prev: nat, hi: nat)
    requires Agreed(p) && i < |p.members| && t == p.members[i].term && t in p.led
    requires prev <= hi <= |p.led[t].log| && prev <= |p.members[i].log|
    requires TermOf(p.members[i].log, prev) == TermOf(p.led[t].log, prev)
    requires ReachesEnd(p.members[i].log, prev, p.led[t].log[prev..hi])
    ensures p.led[t].log[..hi] <= Write(p, i, t, prev, hi).members[i].log
    ensures MemberMatched(Write(p, i, t, prev, hi).members[i], p.led)
  {
    assert MemberMatched(p.members[i], p.led);
    OverlayMatched(p.led, p.members[i].log, t, p.led[t].log, t, prev, hi);
    MatchedPrefix(p.led, p.led[t].log, t, hi);
  }

  lemma WriteAgreed(p: Proto, i: nat, t: int, prev: nat, hi: nat)
    requires Agreed(p) && i < |p.members| && t == p.members[i].term && t in p.led
    requires prev <= hi <= |p.led[t].log| && prev <= |p.members[i].log|
    requires TermOf(p.members[i].log, prev) == TermOf(p.led[t].log, prev)
    requires ReachesEnd(p.members[i].log, prev, p.led[t].log[prev..hi])
    ensures Grows(p, Write(p, i, t, prev, hi)) && Agreed(Write(p, i, t, prev, hi))
    ensures p.led[t].log[..hi] <= Write(p, i, t, prev, hi).members[i].log
  {
    var q := Write(p, i, t, prev, hi);
    WriteSound(p, i, t, prev, hi);
    WriteMatched(p, i, t, prev, hi);
    WriteKeeps(p, i, t, prev, hi);
    WriteAcks(p, i, t, prev, hi);
    MovedAgrees(p, q, i);
    StepAgreed(p, q, i);
  }

  /** Two prefixes of what is chosen or choosable lie on one line. */
  lemma Comparable(p: Proto, s: Log, u: int, k: nat, c: Log, w: int, j: nat)
    requires LeadersComplete(p)
    requires Choosable(p, u, k) && s <= p.led[u].log[..k]
    requires Choosable(p, w, j) && c <= p.led[w].log[..j]
    ensures s <= c || c <= s
  {
    var top := if u <= w then w else u;
    InLaterLed(p, s, u, k, top);
    InLaterLed(p, c, w, j, top);
  }

  lemma CommittedComparable(p: Proto, s: Log, t: int, c: Log, w: int, j: nat)
    requires LeadersComplete(p) && Committed(p, s, t)
    requires Choosable(p, w, j) && c <= p.led[w].log[..j]
    ensures s <= c || c <= s
  {
    if s != [] {
      var u, k: nat :| u <= t && Chosen(p, u, k) && s <= p.led[u].log[..k];
      ChosenChoosable(p, u, k);
      Comparable(p, s, u, k, c, w, j);
    }
  }

  lemma OverlayCovers(l: Log, s: Log, c: Log)
    requires c <= l && (s <= c || c <= s)
    ensures c <= Overlay(l, 0, s)
  {
    OverlayKeeps(l, 0, s, c);
  }

  /** A committed prefix, covered by a snapshot that keeps a suffix only if it lands on the same term. */
  lemma CoverMatched(led: Terms, l: Log, t: int, s: Log)
    requires Matched(led, l, t) && Matched(led, s, t)
    requires |s| < |l| ==> TermOf(l, |s|) == TermOf(s, |s|)
    ensures Overlay(l, 0, s) == s || Overlay(l, 0, s) == l
  {
    if 0 < |s| < |l| {
      SameEntrySamePrefix(led, l, s, t, t, |s|);
      assert s[..|s|] == s;
      assert Overlay(l, 0, s) == l;
    } else if s == [] {
      assert Overlay(l, 0, s) == l;
    } else {
      assert Overlay(l, 0, s) == s;
    }
  }

  lemma CoverAgreed(p: Proto, i: nat, s: Log)
    requires Agreed(p) && i < |p.members|
    requires Matched(p.led, s, p.members[i].term) && Committed(p, s, p.members[i].term)
    requires |s| < |p.members[i].log| ==> TermOf(p.members[i].log, |s|) == TermOf(s, |s|)
    ensures Grows(p, Cover(p, i, s)) && Agreed(Cover(p, i, s))
  {
    var q := Cover(p, i, s);
    var m, w := p.members[i], q.members[i];
    CoverSound(p, i, s);
    assert MemberMatched(m, p.led);
    CoverMatched(p.led, m.log, m.term, s);
    forall u, k: nat | Choosable(p, u, k) && u <= m.term && p.led[u].log[..k] <= m.log
      ensures p.led[u].log[..k] <= w.log
    {
      CommittedComparable(p, s, m.term, p.led[u].log[..k], u, k);
      OverlayCovers(m.log, s, p.led[u].log[..k]);
    }
    assert forall u, k: nat :: HasAcked(q, i, u, k) ==> HasAcked(p, i, u, k);
    MovedAgrees(p, q, i);
    StepAgreed(p, q, i);
  }

  // A leader's new entry.

  /** The members other than leader c of term t are the same in q, and c has nothing new acknowledged. */
  ghost predicate SameBallots(p: Proto, q: Proto) {
    && |q.members| == |p.members|
    && forall v :: 0 <= v < |p.members| ==>
         q.members[v].acked == p.members[v].acked && q.members[v].term == p.members[v].term
  }

  lemma LaterVoterNoHelper(p: Proto, q: Proto, t: int, u: int, k: nat, v: nat)
    requires Sound(p) && Sound(q) && Grows(p, q) && SameBallots(p, q)
    requires t in p.led && p.members[p.led[t].leader].term == t && |p.led[t].log| < k
    requires t < u && u in q.led && v in Voters(q.members, q.led[u].leader, u)
    ensures v !in Helpers(q, t, k)
  {
    assert MemberOk(q.members[v], |q.members|, q.led);
    assert MemberOk(p.members[v], |p.members|, p.led);
  }

  /** An entry beyond what was led cannot be chosen if a later leader exists. */
  lemma NewEntryNotChoosable(p: Proto, q: Proto, t: int, u: int, k: nat)
    requires Sound(p) && Sound(q) && Grows(p, q) && SameBallots(p, q)
    requires t in p.led && p.members[p.led[t].leader].term == t && |p.led[t].log| < k
    requires u in q.led && t < u
    ensures !Choosable(q, t, k)
  {
    if Choosable(q, t, k) {
      assert LedOk(q, u);
      var v := MajoritiesMeet(|q.members|, Voters(q.members, q.led[u].leader, u), Helpers(q, t, k));
      LaterVoterNoHelper(p, q, t, u, k, v);
    }
  }

  lemma ExtendedChoosable(p: Proto, q: Proto, c: nat, t: int, cmd: Command)
    requires Sound(p) && c < |p.members| && p.members[c].term == t
    requires t in p.led && p.led[t] == Led(c, p.members[c].log) && q == Extend(p, c, t, cmd)
    requires Grows(p, q)
    ensures forall u, k: nat :: Choosable(q, u, k) && (u != t || k <= |p.led[t].log|) ==> Choosable(p, u, k)
  {
    forall u, k: nat | Choosable(q, u, k) && (u != t || k <= |p.led[t].log|) ensures Choosable(p, u, k) {
      ChoosableEarlier(p, q, u, k);
    }
  }

  /** What leader c of term t held before it created its next entry. */
  ghost predicate Extending(p: Proto, q: Proto, c: nat, t: int, cmd: Command) {
    && Agreed(p) && c < |p.members| && p.members[c].term == t
    && t in p.led && p.led[t] == Led(c, p.members[c].log) && q == Extend(p, c, t, cmd)
    && Grows(p, q) && Sound(q) && SameBallots(p, q)
  }

  lemma ExtendAcker(p: Proto, q: Proto, c: nat, t: int, cmd: Command, v: nat)
    requires Extending(p, q, c, t, cmd) && v < |p.members|
    ensures AckerKeeps(q, v)
  {
    hide Known, Sound, LeadersComplete, LogsMatched, CandidateKeeps, VoterDemands, LedOk, Helpers, SameBallots;
    assert MemberAgrees(p, v);
    MemberAcked(p, v);
    ExtendedChoosable(p, q, c, t, cmd);
    forall u, k: nat | Choosable(q, u, k) && HasAcked(q, v, u, k) ensures q.led[u].log[..k] <= q.members[v].log {
      if u == t && |p.led[t].log| < k {
        assert v == c;
        assert q.led[u].log[..k] == q.members[c].log;
      } else {
        assert HasAcked(p, v, u, k);
        ExtendPrefix(p, q, c, t, cmd, u, k);
        assert p.members[v].log <= q.members[v].log;
      }
    }
  }

  lemma MemberAcked(p: Proto, v: nat)
    requires Sound(p) && v < |p.members|
    ensures forall t :: t in p.members[v].acked ==> t in p.led && 0 <= p.members[v].acked[t] <= |p.led[t].log|
  {
    assert MemberOk(p.members[v], |p.members|, p.led);
  }

  lemma ExtendPrefix(p: Proto, q: Proto, c: nat, t: int, cmd: Command, u: int, k: nat)
    requires Extending(p, q, c, t, cmd)
    requires Choosable(q, u, k) && (u != t || k <= |p.led[t].log|)
    ensures Choosable(p, u, k) && q.led[u].log[..k] == p.led[u].log[..k]
  {
    ChoosableEarlier(p, q, u, k);
  }

  /** The new entry is in no log that a candidate of a later term showed. */
  lemma NewEntryNotShown(led: Terms, a: Log, u: int, l: Log, t: int)
    requires Known(led, a, u) && t in led && |led[t].log| < |l| && l[|l| - 1].term == t
    ensures !(l <= a)
  {
    if |l| <= |a| {
      assert a[|l| - 1] != l[|l| - 1];
    }
  }

  lemma ExtendCandidate(p: Proto, q: Proto, c: nat, t: int, cmd: Command, v: nat)
    requires Extending(p, q, c, t, cmd) && v < |p.members|
    ensures CandidateKeeps(q, v)
  {
    hide Known, Grows, Sound, LeadersComplete, LogsMatched, AckerKeeps, VoterDemands, LedOk, Helpers, SameBallots;
    var m := p.members[v];
    assert MemberAgrees(p, v);
    MemberKnown(p, v);
    if m.term in m.asked {
      forall u, k: nat | Choosable(q, u, k) && u < m.term && q.led[u].log[..k] <= m.asked[m.term]
        ensures q.led[u].log[..k] <= m.log
      {
        if u == t && |p.led[t].log| < k {
          NewEntryNotShown(p.led, m.asked[m.term], m.term - 1, q.led[u].log[..k], t);
        } else {
          CandidateKept(p, q, c, t, cmd, v, u, k);
        }
      }
      assert m.log <= q.members[v].log;
    }
  }

  lemma MemberKnown(p: Proto, v: nat)
    requires Sound(p) && v < |p.members|
    ensures forall t :: t in p.members[v].asked ==> Known(p.led, p.members[v].asked[t], t - 1)
  {
    assert MemberOk(p.members[v], |p.members|, p.led);
  }

  lemma CandidateKept(p: Proto, q: Proto, c: nat, t: int, cmd: Command, v: nat, u: int, k: nat)
    requires Extending(p, q, c, t, cmd) && v < |p.members| && CandidateKeeps(p, v)
    requires Choosable(q, u, k) && (u != t || k <= |p.led[t].log|)
    requires p.members[v].term in p.members[v].asked && u < p.members[v].term
    requires q.led[u].log[..k] <= p.members[v].asked[p.members[v].term]
    ensures q.led[u].log[..k] <= p.members[v].log
  {
    ExtendPrefix(p, q, c, t, cmd, u, k);
  }

  lemma ExtendVoter(p: Proto, q: Proto, c: nat, t: int, cmd: Command, v: nat)
    requires Extending(p, q, c, t, cmd) && v < |p.members|
    ensures VoterDemands(q, v)
  {
    var m := p.members[v];
    assert MemberAgrees(p, v);
    assert MemberOk(m, |p.members|, p.led);
    forall s, u, k: nat | s in m.voted && Choosable(q, u, k) && u < s && HasAcked(q, v, u, k)
      ensures Showed(q, m.voted[s], s, q.led[u].log[..k])
    {
      if u != t || k <= |p.led[t].log| {
        assert HasAcked(p, v, u, k);
        ExtendPrefix(p, q, c, t, cmd, u, k);
        assert Showed(p, m.voted[s], s, p.led[u].log[..k]);
      }
    }
  }

  lemma StillInLaterLed(p: Proto, q: Proto, u: int, k: nat, w: int)
    requires LeadersComplete(p) && LedGrows(p.led, q.led)
    requires Choosable(p, u, k) && w in p.led && u < w
    ensures p.led[u].log[..k] <= q.led[w].log
  {
    assert p.led[u].log[..k] <= p.led[w].log;
  }

  lemma ExtendLeader(p: Proto, q: Proto, c: nat, t: int, cmd: Command, u: int, w: int, k: nat)
    requires Extending(p, q, c, t, cmd)
    requires Choosable(q, u, k) && w in q.led && u < w
    ensures q.led[u].log[..k] <= q.led[w].log
  {
    if u == t && |p.led[t].log| < k {
      NewEntryNotChoosable(p, q, t, w, k);
    } else {
      ExtendPrefix(p, q, c, t, cmd, u, k);
      StillInLaterLed(p, q, u, k, w);
    }
  }

  lemma ExtendLeaders(p: Proto, q: Proto, c: nat, t: int, cmd: Command)
    requires Extending(p, q, c, t, cmd)
    ensures LeadersComplete(q)
  {
    forall u, w, k: nat | Choosable(q, u, k) && w in q.led && u < w ensures q.led[u].log[..k] <= q.led[w].log {
      ExtendLeader(p, q, c, t, cmd, u, w, k);
    }
  }

  lemma ExtendAgreed(p: Proto, c: nat, t: int, cmd: Command)
    requires Agreed(p) && c < |p.members| && p.members[c].term == t
    requires t in p.led && p.led[t] == Led(c, p.members[c].log)
    ensures Grows(p, Extend(p, c, t, cmd)) && Agreed(Extend(p, c, t, cmd))
  {
    var q := Extend(p, c, t, cmd);
    ExtendSound(p, c, t, cmd);
    assert SameBallots(p, q);
    ExtendMatched(p, q, c, t, cmd);
    ExtendLeaders(p, q, c, t, cmd);
    forall v | 0 <= v < |q.members| ensures MemberAgrees(q, v) {
      ExtendAcker(p, q, c, t, cmd, v);
      ExtendCandidate(p, q, c, t, cmd, v);
      ExtendVoter(p, q, c, t, cmd, v);
    }
  }

  lemma ExtendMatched(p: Proto, q: Proto, c: nat, t: int, cmd: Command)
    requires Extending(p, q, c, t, cmd)
    ensures LogsMatched(q)
  {
    assert MemberMatched(p.members[c], p.led);
    ExtendedMatched(p.led, q.led, p.members[c].log, t, c, cmd);
    forall i | 0 <= i < |q.members| ensures MemberMatched(q.members[i], q.led) {
      MemberMatchedGrows(p.members[i], p.led, q.led);
    }
    forall u | u in q.led ensures Matched(q.led, q.led[u].log, u) {
      if u != t { MatchedGrows(p.led, q.led, q.led[u].log, u, u); }
    }
  }

  lemma ExtendedMatched(a: Terms, b: Terms, l: Log, t: int, c: nat, cmd: Command)
    requires LedGrows(a, b) && Matched(a, l, t) && b == a[t := Led(c, Extended(l, t, cmd))]
    ensures Matched(b, Extended(l, t, cmd), t)
  {
    var m := Extended(l, t, cmd);
    MatchedGrows(a, b, l, t, t);
    forall k | 0 <= k < |m| ensures m[..k + 1] <= b[m[k].term].log {
      if k < |l| {
        assert m[..k + 1] == l[..k + 1];
      } else {
        assert m[..k + 1] == m;
      }
    }
  }

  // What agreement gives.

  /** Log Matching: two members that hold an entry of one term at one index hold the same log up to it. */
  lemma LogMatching(p: Proto, i: nat, j: nat, k: nat)
    requires Agreed(p) && i < |p.members| && j < |p.members|
    requires k < |p.members[i].log| && k < |p.members[j].log|
    requires p.members[i].log[k].term == p.members[j].log[k].term
    ensures p.members[i].log[..k + 1] == p.members[j].log[..k + 1]
  {
    assert MemberMatched(p.members[i], p.led) && MemberMatched(p.members[j], p.led);
    SameEntrySamePrefix(p.led, p.members[i].log, p.members[j].log, p.members[i].term, p.members[j].term, k + 1);
  }

  /** Committed prefixes lie on one line. */
  lemma CommittedLine(p: Proto, a: Log, t: int, b: Log, u: int)
    requires Agreed(p) && Committed(p, a, t) && Committed(p, b, u)
    ensures a <= b || b <= a
  {
    if b != [] {
      var w, j: nat :| w <= u && Chosen(p, w, j) && b <= p.led[w].log[..j];
      ChosenChoosable(p, w, j);
      CommittedComparable(p, a, t, b, w, j);
    }
  }

  /** A committed prefix of a log survives a write by any leader of a term not before it. */
  lemma CommittedSurvivesWrite(p: Proto, i: nat, t: int, prev: nat, hi: nat, c: Log)
    requires Agreed(p) && i < |p.members| && t == p.members[i].term && t in p.led
    requires prev <= hi <= |p.led[t].log| && prev <= |p.members[i].log|
    requires Committed(p, c, t) && c <= p.members[i].log
    ensures c <= Overlay(p.members[i].log, prev, p.led[t].log[prev..hi])
  {
    if c != [] {
      var w, j: nat :| w <= t && Chosen(p, w, j) && c <= p.led[w].log[..j];
      ChosenChoosable(p, w, j);
      InLaterLed(p, c, w, j, t);
    }
    SegmentKeeps(p.members[i].log, prev, p.led[t].log, hi, c);
  }

  lemma CommittedSurvivesCover(p: Proto, i: nat, s: Log, t: int, c: Log)
    requires Agreed(p) && i < |p.members| && Committed(p, s, t) && Committed(p, c, t) && c <= p.members[i].log
    ensures c <= Overlay(p.members[i].log, 0, s)
  {
    CommittedLine(p, s, t, c, t);
    OverlayCovers(p.members[i].log, s, c);
  }
}
