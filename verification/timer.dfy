/**
 * The timers of src/fiber/timer.cpp: objects whose deadlines change, kept in a set ordered by deadline, and
 * a flag that asks for one wake-up of the poller when an earlier deadline comes in.
 */
module TimerManagement {

  datatype Callback = Empty | Calls(id: nat)

  class Timer {
    const address: nat          // what the order falls back on
    const recurring: bool
    var ms: nat
    var next: nat
    var cb: Callback

    constructor (address: nat, now: nat, ms: nat, cb: Callback, recurring: bool)
      ensures this.address == address && this.recurring == recurring
      ensures this.ms == ms && this.next == now + ms && this.cb == cb
    {
      this.address, this.recurring := address, recurring;
      this.ms, this.next, this.cb := ms, now + ms, cb;
    }
  }

  /** Comparator, on the deadline and the address of the two timers. */
  predicate Earlier(next: int, address: nat, otherNext: int, otherAddress: nat) {
    next < otherNext || (next == otherNext && address < otherAddress)
  }

  predicate Before(a: Timer, b: Timer)
    reads a`next, b`next
  {
    Earlier(a.next, a.address, b.next, b.address)
  }

  ghost predicate Ordered(ts: seq<Timer>)
    reads ts`next
  {
    forall i, j :: 0 <= i < j < |ts| ==> Before(ts[i], ts[j])
  }

  lemma OrderedPair(ts: seq<Timer>, i: nat, k: nat)
    requires Ordered(ts) && i < |ts| && k < |ts|
    ensures i < k ==> Earlier(ts[i].next, ts[i].address, ts[k].next, ts[k].address)
  {
    if i < k { assert Before(ts[i], ts[k]); }
  }

  /** The deadline that the poller sleeps to; none if there is no timer. */
  datatype Deadline = Never | At(time: int)

  predicate NoEarlier(a: Deadline, b: Deadline) {
    a.Never? || (b.At? && b.time <= a.time)
  }

  /** No timer is due before the deadline. */
  ghost predicate NoneBefore(ts: seq<Timer>, d: Deadline)
    reads ts`next
  {
    if d.Never? then ts == [] else forall t :: t in ts ==> d.time <= t.next
  }

  lemma EarliestIsLeast(ts: seq<Timer>, d: Deadline)
    requires Ordered(ts)
    ensures NoEarlier(Earliest(ts), d) <==> NoneBefore(ts, d)
  {
    if ts != [] {
      assert ts[0] in ts;
      forall t | t in ts ensures ts[0].next <= t.next {
        var k :| 0 <= k < |ts| && ts[k] == t;
        if k > 0 { assert Before(ts[0], ts[k]); }
      }
    }
  }

  function Earliest(ts: seq<Timer>): Deadline
    reads ts`next
  {
    if ts == [] then Never else At(ts[0].next)
  }

  /** detectClockRolllover: the limit is computed on 64 bits without sign. */
  predicate Rollover(now: nat, previous: nat) {
    now < previous && now < (previous - 60 * 60 * 1000) % 0x1_0000_0000_0000_0000
  }

  /** A step back of the clock by more than an hour counts as a rollover; within the first hour, where the
      limit wraps around, so does every step back. */
  lemma RolloverMeans(now: nat, previous: nat)
    requires previous < 0x1_0000_0000_0000_0000
    ensures Rollover(now, previous) <==> if previous < 3600000 then now < previous else now < previous - 3600000
  {
  }

  /** A timer made with a callback is in the set if and only if it still has it. */
  ghost predicate Registered(ts: seq<Timer>, made: set<Timer>, blank: set<Timer>)
    reads made`cb, blank`cb
  {
    && (forall t :: t in ts ==> t in made || t in blank)
    && (forall t :: t in made ==> (t in ts <==> t.cb != Empty))
    && (forall t :: t in blank ==> t.cb == Empty)
    && (forall a, b :: a in made + blank && b in made + blank && a.address == b.address ==> a == b)
  }

  /** Every deadline lies one period after a time that has passed. */
  ghost predicate Paced(ts: seq<Timer>, clock: nat)
    reads ts`next, ts`ms
  {
    forall t :: t in ts ==> t.ms <= t.next <= clock + t.ms
  }

  lemma SameRegistered(ts: seq<Timer>, us: seq<Timer>, made: set<Timer>, blank: set<Timer>)
    requires Registered(ts, made, blank) && forall t :: t in us <==> t in ts
    ensures Registered(us, made, blank)
  {
  }

  lemma AddedRegistered(ts: seq<Timer>, us: seq<Timer>, made: set<Timer>, blank: set<Timer>, t: Timer)
    requires Registered(ts, made, blank) && forall x :: x in us <==> x in ts || x == t
    requires t !in made && t !in blank && forall x :: x in made + blank ==> x.address != t.address
    ensures t.cb == Empty ==> Registered(us, made, blank + {t})
    ensures t.cb != Empty ==> Registered(us, made + {t}, blank)
    ensures forall x :: x in ts ==> x.address != t.address
  {
  }

  lemma AddedPaced(ts: seq<Timer>, us: seq<Timer>, before: nat, t: Timer, now: nat)
    requires Paced(ts, before) && before <= now && t.next == now + t.ms
    requires forall x :: x in us <==> x in ts || x == t
    ensures Paced(us, now)
  {
  }

  lemma AddressesDiffer(ts: seq<Timer>, made: set<Timer>, blank: set<Timer>, t: Timer)
    requires Registered(ts, made, blank) && (t in made || t in blank)
    ensures forall x :: x in ts && x.address == t.address ==> x == t
    ensures t in made ==> (t in ts <==> t.cb != Empty)
    ensures t in blank ==> t.cb == Empty
  {
  }

  class TimerManager {
    var timers: seq<Timer>             // timers_, in its order
    var tickled: bool
    var previousTime: nat
    var wakeUps: nat                   // calls of OnTimerInsertedAtFront
    ghost var made: set<Timer>         // made with a callback
    ghost var blank: set<Timer>        // made with an empty callback
    ghost var clock: nat               // the latest time that an operation read
    ghost var polled: Deadline         // the earliest deadline at the last getNextTimer
    ghost var wakeUpsThen: nat

    ghost predicate Valid()
      reads this, made, blank, timers
    {
      && Ordered(timers) && Registered(timers, made, blank) && Paced(timers, clock) && previousTime <= clock
    }

    /** Since the last poll a wake-up was issued, and no more than one; or no deadline has become earlier. */
    ghost predicate Awake()
      reads this, timers`next
    {
      && wakeUps == wakeUpsThen + (if tickled then 1 else 0)
      && (tickled || NoEarlier(Earliest(timers), polled))
    }

    /** No deadline has become earlier since the last poll. */
    ghost predicate Quiet()
      reads this, timers`next
    {
      NoneBefore(timers, polled)
    }

    constructor (now: nat)
      ensures Valid() && Awake() && timers == [] && made == {} && blank == {} && clock == now
      ensures wakeUps == 0 && wakeUpsThen == 0 && polled == Never && !tickled
    {
      timers, tickled, wakeUps, previousTime := [], false, 0, now;
      made, blank, clock, polled, wakeUpsThen := {}, {}, now, Never, 0;
    }

    /** std::set's lower_bound. */
    method LowerBound(next: nat, address: nat) returns (i: nat)
      requires Ordered(timers)
      ensures i <= |timers|
      ensures forall k :: 0 <= k < i ==> Earlier(timers[k].next, timers[k].address, next, address)
      ensures forall k :: i <= k < |timers| ==> !Earlier(timers[k].next, timers[k].address, next, address)
    {
      i := 0;
      while i < |timers| && Earlier(timers[i].next, timers[i].address, next, address)
        invariant i <= |timers|
        invariant forall k :: 0 <= k < i ==> Earlier(timers[k].next, timers[k].address, next, address)
      {
        i := i + 1;
      }
      forall k | i <= k < |timers| ensures !Earlier(timers[k].next, timers[k].address, next, address) {
        if k > i { assert Before(timers[i], timers[k]); }
      }
    }

    /** std::set's find, which goes by the order: it finds a timer only if its place fits its deadline. */
    method Find(t: Timer) returns (i: nat)
      requires Ordered(timers)
      requires forall x :: x in timers && x.address == t.address ==> x == t
      ensures i <= |timers|
      ensures t in timers ==> i < |timers| && timers[i] == t
      ensures t !in timers ==> i == |timers|
    {
      i := LowerBound(t.next, t.address);
      if t in timers {
        var k :| 0 <= k < |timers| && timers[k] == t;
        assert k >= i;
        OrderedPair(timers, i, k);
        assert k == i;
      }
      if i < |timers| && Earlier(t.next, t.address, timers[i].next, timers[i].address) {
        i := |timers|;
      }
    }

    /** std::set's insert, of a timer that is not in the set. */
    method Insert(t: Timer) returns (i: nat)
      requires Ordered(timers) && forall x :: x in timers ==> x.address != t.address
      modifies this`timers
      ensures Ordered(timers) && i < |timers| && timers[i] == t
      ensures i <= |old(timers)| && timers == old(timers)[..i] + [t] + old(timers)[i..]
      ensures forall x :: x in timers <==> x in old(timers) || x == t
    {
      i := LowerBound(t.next, t.address);
      ghost var was := timers;
      timers := timers[..i] + [t] + timers[i..];
      forall a, b | 0 <= a < b < |timers| ensures Before(timers[a], timers[b]) {
        assert timers[a] == if a < i then was[a] else if a == i then t else was[a - 1];
        assert timers[b] == if b < i then was[b] else if b == i then t else was[b - 1];
      }
      forall x ensures x in timers <==> x in was || x == t {
        assert was == was[..i] + was[i..];
      }
    }

    method Erase(i: nat)
      requires Ordered(timers) && i < |timers|
      modifies this`timers
      ensures Ordered(timers) && timers == old(timers)[..i] + old(timers)[i + 1..]
      ensures forall x :: x in timers <==> x in old(timers) && x != old(timers)[i]
    {
      ghost var was := timers;
      timers := timers[..i] + timers[i + 1..];
      forall a, b | 0 <= a < b < |timers| ensures Before(timers[a], timers[b]) {
        assert timers[a] == was[if a < i then a else a + 1];
        assert timers[b] == was[if b < i then b else b + 1];
      }
      forall x ensures x in timers <==> x in was && x != was[i] {
        if x in timers {
          var a :| 0 <= a < |timers| && timers[a] == x;
          var p := if a < i then a else a + 1;
          assert was[p] == x;
          if p < i { assert Before(was[p], was[i]); } else { assert Before(was[i], was[p]); }
        }
        if x in was && x != was[i] {
          var p :| 0 <= p < |was| && was[p] == x;
          assert timers[if p < i then p else p - 1] == x;
        }
      }
    }

    /** The private addTimer: insert, and issue a wake-up if this is the new front and none was issued. */
    method AddLocked(t: Timer)
      requires Ordered(timers) && forall x :: x in timers ==> x.address != t.address
      modifies this`timers, this`tickled, this`wakeUps
      ensures Ordered(timers) && forall x :: x in timers <==> x in old(timers) || x == t
      ensures var front := timers[0] == t && !old(tickled);
              tickled == (old(tickled) || front) && wakeUps == old(wakeUps) + if front then 1 else 0
      ensures old(Awake()) ==> Awake()
    {
      EarliestIsLeast(timers, polled);
      var i := Insert(t);
      EarliestIsLeast(timers, polled);
      var atFront := i == 0 && !tickled;
      if atFront {
        tickled := true;
        wakeUps := wakeUps + 1;
      }
    }

    method AddTimer(address: nat, now: nat, ms: nat, cb: Callback, recurring: bool) returns (t: Timer)
      requires Valid() && clock <= now && forall x :: x in made + blank ==> x.address != address
      modifies this
      ensures Valid() && fresh(t) && (old(Awake()) ==> Awake())
      ensures t.next == now + ms && t.ms == ms && t.cb == cb && t.recurring == recurring && t.address == address
      ensures forall x :: x in timers <==> x in old(timers) || x == t
      ensures if cb == Empty then made == old(made) && blank == old(blank) + {t}
              else made == old(made) + {t} && blank == old(blank)
      ensures clock == now && polled == old(polled) && wakeUpsThen == old(wakeUpsThen)
      ensures var front := timers[0] == t && !old(tickled);
              tickled == (old(tickled) || front) && wakeUps == old(wakeUps) + if front then 1 else 0
    {
      hide Ordered, Registered, Paced, NoEarlier, Earliest;
      t := new Timer(address, now, ms, cb, recurring);
      Enroll(t, now);
    }

    /** The end of the public addTimer, with the timer made. */
    method Enroll(t: Timer, now: nat)
      requires Valid() && clock <= now && t.next == now + t.ms
      requires t !in made && t !in blank && forall x :: x in made + blank ==> x.address != t.address
      modifies this`timers, this`tickled, this`wakeUps, this`clock, this`made, this`blank
      ensures Valid() && (old(Awake()) ==> Awake()) && clock == now
      ensures forall x :: x in timers <==> x in old(timers) || x == t
      ensures if t.cb == Empty then made == old(made) && blank == old(blank) + {t}
              else made == old(made) + {t} && blank == old(blank)
      ensures var front := timers[0] == t && !old(tickled);
              tickled == (old(tickled) || front) && wakeUps == old(wakeUps) + if front then 1 else 0
    {
      hide Ordered, Registered, Paced, NoEarlier, Earliest;
      ghost var was := timers;
      AddedRegistered(was, was + [t], made, blank, t);
      AddLocked(t);
      AddedRegistered(was, timers, made, blank, t);
      AddedPaced(was, timers, clock, t, now);
      clock := now;
      if t.cb == Empty { blank := blank + {t}; } else { made := made + {t}; }
    }

    /** Cancelling a timer that still has its callback takes it out of the set, where it always is. */
    method Cancel(t: Timer) returns (ok: bool)
      requires Valid() && (t in made || t in blank)
      modifies this`timers, t`cb
      ensures Valid() && (old(Awake()) ==> Awake())
      ensures ok <==> old(t.cb) != Empty
      ensures t.cb == Empty
      ensures forall x :: x in timers <==> x in old(timers) && !(ok && x == t)
    {
      ok := false;
      if t.cb != Empty {
        EarliestIsLeast(timers, polled);
        t.cb := Empty;
        var it := Find(t);
        Erase(it);
        EarliestIsLeast(timers, polled);
        ok := true;
      }
    }

    /** Erase the timer, change its deadline, and insert it again. */
    method Requeue(t: Timer, it: nat, next: nat)
      requires Ordered(timers) && it < |timers| && timers[it] == t
      requires forall x :: x in timers && x.address == t.address ==> x == t
      modifies this`timers, t`next
      ensures Ordered(timers) && t.next == next
      ensures forall x :: x in timers <==> x in old(timers)
    {
      Erase(it);
      t.next := next;
      var _ := Insert(t);
    }

    method Refresh(t: Timer, now: nat) returns (ok: bool)
      requires Valid() && (t in made || t in blank) && clock <= now
      modifies this`timers, this`clock, t`next
      ensures Valid() && (old(Awake()) ==> Awake())
      ensures ok <==> t.cb != Empty
      ensures t.next == if ok then now + t.ms else old(t.next)
      ensures forall x :: x in timers <==> x in old(timers)
      ensures clock == now
    {
      hide Ordered, Registered;
      clock := now;
      if t.cb == Empty {
        return false;
      }
      AddressesDiffer(timers, made, blank, t);
      var it := Find(t);
      if it == |timers| {
        return false;
      }
      EarliestIsLeast(timers, polled);
      Requeue(t, it, now + t.ms);
      SameRegistered(old(timers), timers, made, blank);
      EarliestIsLeast(timers, polled);
      ok := true;
    }

    /** Unlike refresh, reset may move a deadline forward, and asks for a wake-up if it comes to the front. */
    method Reset(t: Timer, ms: nat, fromNow: bool, now: nat) returns (ok: bool)
      requires Valid() && (t in made || t in blank) && clock <= now
      modifies this`timers, this`clock, this`tickled, this`wakeUps, t`next, t`ms
      ensures Valid() && (old(Awake()) ==> Awake())
      ensures ok
      ensures if t.cb == Empty || (ms == old(t.ms) && !fromNow)
              then t.next == old(t.next) && t.ms == old(t.ms)
              else t.ms == ms && t.next == (if fromNow then now else old(t.next) - old(t.ms)) + ms
      ensures forall x :: x in timers <==> x in old(timers)
      ensures clock == now
      ensures var front := old(t.cb != Empty && (ms != t.ms || fromNow)) && !old(tickled) && timers[0] == t;
              tickled == (old(tickled) || front) && wakeUps == old(wakeUps) + if front then 1 else 0
    {
      hide Ordered, Registered;
      clock := now;
      if ms == t.ms && !fromNow {
        return true;
      }
      if t.cb == Empty {
        return true;
      }
      AddressesDiffer(timers, made, blank, t);
      var it := Find(t);
      if it == |timers| {
        return false;
      }
      var start := if fromNow then now else t.next - t.ms;
      RequeueLocked(t, it, start, ms);
      SameRegistered(old(timers), timers, made, blank);
      ok := true;
    }

    /** Erase the timer, change its period and deadline, and give it to the private addTimer. */
    method RequeueLocked(t: Timer, it: nat, start: nat, ms: nat)
      requires Ordered(timers) && it < |timers| && timers[it] == t && Paced(timers, clock) && start <= clock
      requires forall x :: x in timers && x.address == t.address ==> x == t
      modifies this`timers, this`tickled, this`wakeUps, t`next, t`ms
      ensures Ordered(timers) && Paced(timers, clock) && t.ms == ms && t.next == start + ms
      ensures forall x :: x in timers <==> x in old(timers)
      ensures var front := timers[0] == t && !old(tickled);
              tickled == (old(tickled) || front) && wakeUps == old(wakeUps) + if front then 1 else 0
      ensures old(Awake()) ==> Awake()
    {
      EarliestIsLeast(timers, polled);
      Erase(it);
      EarliestIsLeast(timers, polled);
      t.ms := ms;
      t.next := start + ms;
      AddLocked(t);
    }

    /** How long the poller may sleep; from here on one wake-up may be issued again. */
    method GetNextTimer(now: nat) returns (sleep: Deadline)
      requires Valid() && clock <= now
      modifies this`tickled, this`clock, this`polled, this`wakeUpsThen
      ensures Valid() && Awake() && !tickled && wakeUpsThen == wakeUps && polled == Earliest(timers) && clock == now
      ensures sleep == if timers == [] then Never
                       else if now >= timers[0].next then At(0) else At(timers[0].next - now)
    {
      clock := now;
      tickled := false;
      polled, wakeUpsThen := Earliest(timers), wakeUps;
      if timers == [] {
        return Never;
      }
      var next := timers[0];
      if now >= next.next {
        sleep := At(0);
      } else {
        sleep := At(next.next - now);
      }
    }

    method HasTimer() returns (has: bool)
      ensures has <==> timers != []
    {
      has := timers != [];
    }

    /** The write of detectClockRolllover. */
    method NoteTime(now: nat)
      modifies this`previousTime, this`clock
      ensures previousTime == now && clock == if old(clock) < now then now else old(clock)
    {
      previousTime := now;
      clock := if clock < now then now else clock;
    }

    /** The first timer after those that are due. */
    method DueEnd(now: nat, temporary: nat) returns (it: nat)
      requires Ordered(timers)
      ensures it <= |timers|
      ensures forall k :: 0 <= k < it ==> timers[k].next <= now
      ensures forall k :: it <= k < |timers| ==> now < timers[k].next
    {
      it := LowerBound(now, temporary);
      while it < |timers| && timers[it].next == now
        invariant it <= |timers| && forall k :: 0 <= k < it ==> timers[k].next <= now
        invariant forall k :: it <= k < |timers| ==> now <= timers[k].next
      {
        it := it + 1;
      }
      forall k | it <= k < |timers| ensures now < timers[k].next {
        if k > it { assert Before(timers[it], timers[k]); }
      }
    }

    /** The last loop of listExpiredCb, over the timers that were just taken out of the set. */
    method RunExpired(expired: seq<Timer>, now: nat) returns (cbs: seq<Callback>)
      requires Ordered(timers) && (forall x :: x in expired ==> x !in timers)
      requires forall i, j :: 0 <= i < j < |expired| ==> expired[i] != expired[j]
      requires forall x, y :: x in expired + timers && y in expired + timers && x.address == y.address ==> x == y
      modifies this`timers, expired`next, expired`cb
      ensures Ordered(timers) && |cbs| == |expired|
      ensures forall k :: 0 <= k < |expired| ==>
                && cbs[k] == old(expired[k].cb)
                && expired[k].next == (if expired[k].recurring then now + expired[k].ms else old(expired[k].next))
                && expired[k].cb == (if expired[k].recurring then old(expired[k].cb) else Empty)
      ensures forall x :: x in timers <==> x in old(timers) || (x in expired && x.recurring)
    {
      hide Ordered;
      cbs := [];
      var k := 0;
      while k < |expired|
        invariant k <= |expired| && |cbs| == k && Ordered(timers)
        invariant forall j :: 0 <= j < k ==>
                    && cbs[j] == old(expired[j].cb)
                    && expired[j].next == (if expired[j].recurring then now + expired[j].ms else old(expired[j].next))
                    && expired[j].cb == (if expired[j].recurring then old(expired[j].cb) else Empty)
        invariant forall j :: k <= j < |expired| ==>
                    expired[j].next == old(expired[j].next) && expired[j].cb == old(expired[j].cb)
        invariant forall x :: x in timers <==> x in old(timers) || (x in expired[..k] && x.recurring)
      {
        var t := expired[k];
        cbs := cbs + [t.cb];
        assert t !in expired[..k] && expired[..k + 1] == expired[..k] + [t];
        if t.recurring {
          t.next := now + t.ms;
          var _ := Insert(t);
        } else {
          t.cb := Empty;
        }
        k := k + 1;
      }
      assert expired[..k] == expired;
    }

    /** Take what is due out of the set, or everything after a rollover, and run it. */
    method TakeDue(now: nat, temporary: nat, rollover: bool) returns (cbs: seq<Callback>)
      requires Ordered(timers) && Registered(timers, made, blank)
      modifies this`timers, timers`next, timers`cb
      ensures Ordered(timers) && |cbs| <= |old(timers)| && Ran(old(timers), timers, |cbs|)
      ensures if rollover then |cbs| == |old(timers)|
              else (forall k :: 0 <= k < |cbs| ==> old(timers[k].next) <= now)
                   && (forall k :: |cbs| <= k < |old(timers)| ==> now < old(timers[k].next))
      ensures forall k :: 0 <= k < |cbs| ==> cbs[k] == old(timers[k].cb)
      ensures forall k :: 0 <= k < |old(timers)| ==>
                && old(timers)[k].next == (if k < |cbs| && old(timers)[k].recurring then now + old(timers)[k].ms
                                           else old(timers[k].next))
                && old(timers)[k].cb == (if k < |cbs| && !old(timers)[k].recurring then Empty else old(timers[k].cb))
    {
      hide Ordered, Registered;
      ghost var was := timers;
      var it: nat := |timers|;
      if !rollover { it := DueEnd(now, temporary); }
      var expired := timers[..it];
      timers := timers[it..];
      Apart(was, it, made, blank);
      cbs := RunExpired(expired, now);
      assert forall k :: 0 <= k < it ==> was[k] == expired[k];
      forall k | it <= k < |was| ensures was[k] !in expired { assert was[k] == was[it..][k - it]; }
    }

    /** Expiry is exact: without a rollover, the callbacks of precisely the timers with a deadline not after
        `now` come back, in the order of their deadlines; recurring timers return with a deadline one period
        after `now`, the others leave the set and lose their callback. */
    method Expire(now: nat, temporary: nat, rollover: bool, ghost bound: nat) returns (cbs: seq<Callback>)
      requires Ordered(timers) && Registered(timers, made, blank) && Paced(timers, bound) && now <= bound
      modifies this`timers, timers`next, timers`cb
      ensures Ordered(timers) && Registered(timers, made, blank) && Paced(timers, bound)
      ensures (!rollover && old(Quiet()) ==> Quiet())
      ensures |cbs| <= |old(timers)| && Ran(old(timers), timers, |cbs|)
      ensures if rollover then |cbs| == |old(timers)|
              else (forall k :: 0 <= k < |cbs| ==> old(timers[k].next) <= now)
                   && (forall k :: |cbs| <= k < |old(timers)| ==> now < old(timers[k].next))
      ensures forall k :: 0 <= k < |cbs| ==> cbs[k] == old(timers[k].cb)
      ensures forall k :: 0 <= k < |old(timers)| ==>
                && old(timers)[k].next == (if k < |cbs| && old(timers)[k].recurring then now + old(timers)[k].ms
                                           else old(timers[k].next))
                && old(timers)[k].cb == (if k < |cbs| && !old(timers)[k].recurring then Empty else old(timers[k].cb))
    {
      hide Ordered, Registered, Paced, NoneBefore, Callbacks, Nexts, Ran;
      ghost var was, cbs0, nexts0 := timers, Callbacks(timers), Nexts(timers);
      ghost var quiet := Quiet();
      RegisteredParts(was, made, blank);
      PacedParts(was, bound);
      if quiet { NoneBeforeParts(was, polled); }
      cbs := TakeDue(now, temporary, rollover);
      StillRegistered(was, timers, |cbs|, cbs0, made, blank);
      StillPaced(was, timers, |cbs|, now, bound, nexts0);
      if !rollover && quiet { StillNoneBefore(was, timers, |cbs|, now, polled, nexts0); }
    }

    method ListExpiredCb(now: nat, temporary: nat) returns (cbs: seq<Callback>)
      requires Valid()
      modifies this`timers, this`clock, this`previousTime, timers`next, timers`cb
      ensures Valid()
      ensures var rollover := old(timers) != [] && Rollover(now, old(previousTime));
              && (!rollover && old(Awake()) ==> Awake())
              && |cbs| <= |old(timers)| && Ran(old(timers), timers, |cbs|)
              && (if rollover then |cbs| == |old(timers)|
                  else (forall k :: 0 <= k < |cbs| ==> old(timers[k].next) <= now)
                       && (forall k :: |cbs| <= k < |old(timers)| ==> now < old(timers[k].next)))
      ensures forall k :: 0 <= k < |cbs| ==> cbs[k] == old(timers[k].cb)
      ensures forall k :: 0 <= k < |old(timers)| ==>
                && old(timers)[k].next == (if k < |cbs| && old(timers)[k].recurring then now + old(timers)[k].ms
                                           else old(timers[k].next))
                && old(timers)[k].cb == (if k < |cbs| && !old(timers)[k].recurring then Empty else old(timers[k].cb))
      ensures clock == if old(clock) < now && old(timers) != [] then now else old(clock)
      ensures previousTime == if old(timers) != [] then now else old(previousTime)
    {
      hide NoneBefore, Ran, Registered, Paced, Ordered, Earliest, NoEarlier;
      if timers == [] {
        NothingRan(timers);
        return [];
      }
      EarliestIsLeast(timers, polled);
      var rollover := Rollover(now, previousTime);
      ghost var bound := if clock < now then now else clock;
      PacedLater(timers, clock, bound);
      if !rollover && timers[0].next > now {
        NothingRan(timers);
        AllAfterFirst(timers, now);
        NoteTime(now);
        return [];
      }
      cbs := Expire(now, temporary, rollover, bound);
      EarliestIsLeast(timers, polled);
      NoteTime(now);
    }
  }

  lemma PacedLater(ts: seq<Timer>, clock: nat, bound: nat)
    requires Paced(ts, clock) && clock <= bound
    ensures Paced(ts, bound)
  {
  }

  lemma NothingRan(ts: seq<Timer>)
    ensures Ran(ts, ts, 0)
  {
    assert ts[..0] == [] && ts[0..] == ts;
  }

  lemma AllAfterFirst(ts: seq<Timer>, time: nat)
    requires Ordered(ts) && ts != []
    ensures time < ts[0].next ==> forall k :: 0 <= k < |ts| ==> time < ts[k].next
  {
    forall k | 0 < k < |ts| ensures ts[0].next <= ts[k].next { assert Before(ts[0], ts[k]); }
  }

  lemma Apart(ts: seq<Timer>, it: nat, made: set<Timer>, blank: set<Timer>)
    requires Ordered(ts) && Registered(ts, made, blank) && it <= |ts|
    ensures Ordered(ts[it..])
    ensures forall i, j :: 0 <= i < j < |ts| ==> ts[i] != ts[j]
    ensures forall x :: x in ts[..it] ==> x !in ts[it..]
    ensures forall x, y :: x in ts[..it] + ts[it..] && y in ts[..it] + ts[it..] && x.address == y.address ==> x == y
  {
    assert ts[..it] + ts[it..] == ts;
    forall i, j | 0 <= i < j < |ts| ensures ts[i] != ts[j] { assert Before(ts[i], ts[j]); }
  }

  ghost function Callbacks(ts: seq<Timer>): (cbs: seq<Callback>)
    reads ts`cb
    ensures |cbs| == |ts| && forall k :: 0 <= k < |ts| ==> cbs[k] == ts[k].cb
  {
    if ts == [] then [] else Callbacks(ts[..|ts| - 1]) + [ts[|ts| - 1].cb]
  }

  ghost function Nexts(ts: seq<Timer>): (nexts: seq<nat>)
    reads ts`next
    ensures |nexts| == |ts| && forall k :: 0 <= k < |ts| ==> nexts[k] == ts[k].next
  {
    if ts == [] then [] else Nexts(ts[..|ts| - 1]) + [ts[|ts| - 1].next]
  }

  /** The set after the first timers of it ran. */
  ghost predicate Ran(was: seq<Timer>, now: seq<Timer>, it: nat) {
    && it <= |was|
    && (forall x :: x in now ==> x in was[it..] || (x in was[..it] && x.recurring))
    && (forall x :: x in was[it..] ==> x in now)
    && (forall x :: x in was[..it] && x.recurring ==> x in now)
    && (forall x :: x in was[..it] ==> x !in was[it..])
  }

  lemma RanAt(was: seq<Timer>, now: seq<Timer>, it: nat, k: nat)
    requires Ran(was, now, it) && k < |was|
    ensures was[k] in now <==> it <= k || was[k].recurring
  {
    if k < it { assert was[..it][k] == was[k]; } else { assert was[it..][k - it] == was[k]; }
  }

  lemma RanFrom(was: seq<Timer>, now: seq<Timer>, it: nat, t: Timer) returns (k: nat)
    requires Ran(was, now, it) && t in now
    ensures k < |was| && was[k] == t && (it <= k || t.recurring)
  {
    if t in was[it..] {
      var j :| 0 <= j < |was[it..]| && was[it..][j] == t;
      k := it + j;
    } else {
      var j :| 0 <= j < |was[..it]| && was[..it][j] == t;
      k := j;
    }
  }

  lemma RanWhere(was: seq<Timer>, now: seq<Timer>, it: nat, t: Timer) returns (k: nat)
    requires Ran(was, now, it)
    ensures t !in was ==> t !in now
    ensures t in was ==> k < |was| && was[k] == t && (t in now <==> it <= k || t.recurring)
  {
    k := 0;
    if t in was {
      k :| k < |was| && was[k] == t;
      RanAt(was, now, it, k);
    } else if t in now {
      k := RanFrom(was, now, it, t);
      assert false;
    }
  }

  lemma StillRegistered(was: seq<Timer>, now: seq<Timer>, it: nat, cbs: seq<Callback>, made: set<Timer>, blank: set<Timer>)
    requires Ran(was, now, it) && |cbs| == |was|
    requires forall k :: 0 <= k < |was| ==>
               was[k].cb == if k < it && !was[k].recurring then Empty else cbs[k]
    requires forall k :: 0 <= k < |was| ==>
               (was[k] in made || was[k] in blank) && (was[k] in made ==> cbs[k] != Empty)
    requires forall t :: t in made && t !in was ==> t.cb == Empty
    requires forall t :: t in blank ==> t.cb == Empty
    requires forall a, b :: a in made + blank && b in made + blank && a.address == b.address ==> a == b
    ensures Registered(now, made, blank)
  {
    hide Ran;
    forall t | t in now ensures t in made || t in blank {
      var k := RanFrom(was, now, it, t);
    }
    forall t | t in made ensures t in now <==> t.cb != Empty {
      if t in was {
        var k :| 0 <= k < |was| && was[k] == t;
        RanAt(was, now, it, k);
      } else if t in now {
        var k := RanFrom(was, now, it, t);
        assert false;
      }
    }
  }

  lemma StillPaced(was: seq<Timer>, now: seq<Timer>, it: nat, time: nat, clock: nat, nexts: seq<nat>)
    requires Ran(was, now, it) && |nexts| == |was| && time <= clock
    requires forall k :: 0 <= k < |was| ==>
               was[k].next == if k < it && was[k].recurring then time + was[k].ms else nexts[k]
    requires forall k :: 0 <= k < |was| ==> was[k].ms <= nexts[k] <= clock + was[k].ms
    ensures Paced(now, clock)
  {
    hide Ran;
    forall t | t in now ensures t.ms <= t.next <= clock + t.ms {
      var k := RanFrom(was, now, it, t);
    }
  }

  lemma StillNoneBefore(was: seq<Timer>, now: seq<Timer>, it: nat, time: nat, d: Deadline, nexts: seq<nat>)
    requires Ran(was, now, it) && |nexts| == |was|
    requires forall k :: 0 <= k < |was| ==>
               was[k].next == if k < it && was[k].recurring then time + was[k].ms else nexts[k]
    requires forall k :: 0 <= k < it ==> nexts[k] <= time
    requires if d.Never? then was == [] else forall k :: 0 <= k < |was| ==> d.time <= nexts[k]
    ensures NoneBefore(now, d)
  {
    hide Ran;
    if d.Never? {
      if now != [] { var k := RanFrom(was, now, it, now[0]); }
    } else {
      forall t | t in now ensures d.time <= t.next {
        var k := RanFrom(was, now, it, t);
        assert was[k].next >= nexts[k];
      }
    }
  }

  lemma RegisteredParts(ts: seq<Timer>, made: set<Timer>, blank: set<Timer>)
    requires Registered(ts, made, blank)
    ensures forall k :: 0 <= k < |ts| ==> (ts[k] in made || ts[k] in blank) && (ts[k] in made ==> ts[k].cb != Empty)
    ensures forall t :: t in made && t !in ts ==> t.cb == Empty
    ensures forall t :: t in blank ==> t.cb == Empty
    ensures forall a, b :: a in made + blank && b in made + blank && a.address == b.address ==> a == b
  {
  }

  lemma PacedParts(ts: seq<Timer>, clock: nat)
    requires Paced(ts, clock)
    ensures forall k :: 0 <= k < |ts| ==> ts[k].ms <= ts[k].next <= clock + ts[k].ms
  {
  }

  lemma NoneBeforeParts(ts: seq<Timer>, d: Deadline)
    requires NoneBefore(ts, d)
    ensures if d.Never? then ts == [] else forall k :: 0 <= k < |ts| ==> d.time <= ts[k].next
  {
  }

  // Whole histories, against what they mean without the set of objects.

  datatype Action =
    | Add(ms: nat, cb: Callback, recurring: bool)
    | Cancel(i: nat)
    | Refresh(i: nat)
    | Reset(i: nat, ms: nat, fromNow: bool)
    | Expire
    | Poll

  /** What a timer stands for; the i-th timer made has the address i. */
  datatype Plan = Plan(next: int, ms: nat, recurring: bool, cb: Callback, queued: bool)

  datatype Book = Book(plans: seq<Plan>, tickled: bool, wakeUps: nat)

  /** What the poller finds when it calls getNextTimer: the earliest deadline when it last called, the
      earliest now, the wake-ups that were issued in between, and how long it may sleep. */
  datatype Finding = Finding(before: Deadline, earliest: Deadline, wakeUps: int, sleep: Deadline)

  /** The book beside the poller's own notes. */
  datatype Watch = Watch(book: Book, now: nat, polled: Deadline, seen: nat, found: seq<Finding>)

  predicate First(plans: seq<Plan>, i: nat)
    requires i < |plans|
  {
    forall j :: 0 <= j < |plans| && j != i && plans[j].queued ==> Earlier(plans[i].next, i, plans[j].next, j)
  }

  function Sooner(d: Deadline, time: int): Deadline {
    if d.Never? || time < d.time then At(time) else d
  }

  /** The earliest deadline of what is queued. */
  function LeastOf(plans: seq<Plan>): (d: Deadline)
    ensures d.Never? ==> forall i :: 0 <= i < |plans| ==> !plans[i].queued
    ensures d.At? ==> forall i :: 0 <= i < |plans| && plans[i].queued ==> d.time <= plans[i].next
    ensures d.At? ==> exists i :: 0 <= i < |plans| && plans[i].queued && plans[i].next == d.time
  {
    if plans == [] then Never
    else
      var d := LeastOf(plans[..|plans| - 1]);
      var p := plans[|plans| - 1];
      if p.queued then Sooner(d, p.next) else d
  }

  /** A wake-up, if plan i has come to the front and none was issued. */
  function Entered(b: Book, i: nat): Book
    requires i < |b.plans|
  {
    if !b.tickled && First(b.plans, i) then b.(tickled := true, wakeUps := b.wakeUps + 1) else b
  }

  function Expired(p: Plan, now: nat): Plan {
    if !p.queued || now < p.next then p
    else if p.recurring then p.(next := now + p.ms)
    else p.(cb := Empty, queued := false)
  }

  function AllExpired(plans: seq<Plan>, now: nat): (after: seq<Plan>)
    ensures |after| == |plans| && forall i :: 0 <= i < |plans| ==> after[i] == Expired(plans[i], now)
  {
    seq(|plans|, i requires 0 <= i < |plans| => Expired(plans[i], now))
  }

  function Act(b: Book, a: Action, now: nat): Book {
    match a
    case Add(ms, cb, recurring) =>
      Entered(b.(plans := b.plans + [Plan(now + ms, ms, recurring, cb, true)]), |b.plans|)
    case Cancel(i) =>
      if i < |b.plans| && b.plans[i].cb != Empty then b.(plans := b.plans[i := b.plans[i].(cb := Empty, queued := false)])
      else b
    case Refresh(i) =>
      if i < |b.plans| && b.plans[i].cb != Empty then b.(plans := b.plans[i := b.plans[i].(next := now + b.plans[i].ms)])
      else b
    case Reset(i, ms, fromNow) =>
      if i >= |b.plans| || b.plans[i].cb == Empty || (ms == b.plans[i].ms && !fromNow) then b
      else
        var p := b.plans[i];
        var start := if fromNow then now else p.next - p.ms;
        Entered(b.(plans := b.plans[i := p.(next := start + ms, ms := ms)]), i)
    case Expire => b.(plans := AllExpired(b.plans, now))
    case Poll => b.(tickled := false)
  }

  function Sleep(d: Deadline, now: nat): Deadline {
    if d.Never? then Never else At(if now < d.time then d.time - now else 0)
  }

  /** The watch after one action, `wait` later. */
  function Next(w: Watch, wait: nat, a: Action): Watch {
    var now := w.now + wait;
    var b := Act(w.book, a, now);
    if !a.Poll? then w.(book := b, now := now)
    else
      var d := LeastOf(w.book.plans);
      Watch(b, now, d, b.wakeUps, w.found + [Finding(w.polled, d, b.wakeUps - w.seen, Sleep(d, now))])
  }

  /** The watch after the first k actions. */
  function After(start: nat, acts: seq<(nat, Action)>, k: nat): Watch
    requires k <= |acts|
  {
    if k == 0 then Watch(Book([], false, 0), start, Never, 0, [])
    else Next(After(start, acts, k - 1), acts[k - 1].0, acts[k - 1].1)
  }

  /** Since the last poll a wake-up was issued, and no more than one; or nothing has become earlier. */
  ghost predicate Minded(w: Watch) {
    && w.book.wakeUps == w.seen + (if w.book.tickled then 1 else 0)
    && (w.book.tickled || NoEarlier(LeastOf(w.book.plans), w.polled))
  }

  /** A plan with a callback is queued, at most one period ahead. */
  ghost predicate Queued(plans: seq<Plan>, now: nat) {
    forall i :: 0 <= i < |plans| && plans[i].cb != Empty ==> plans[i].queued && plans[i].next <= now + plans[i].ms
  }

  /** Nothing queued comes before d. */
  ghost predicate NoneDue(plans: seq<Plan>, d: Deadline) {
    forall i :: 0 <= i < |plans| && plans[i].queued ==> d.At? && d.time <= plans[i].next
  }

  lemma NoneDueMeans(plans: seq<Plan>, d: Deadline)
    ensures NoneDue(plans, d) <==> NoEarlier(LeastOf(plans), d)
  {
  }

  /** Plans that are at least as late as before, but for the i-th, which is behind another or is noticed. */
  lemma EnteredMinded(plans: seq<Plan>, b: Book, i: nat, d: Deadline, seen: nat)
    requires i < |b.plans|
    requires forall j :: 0 <= j < |b.plans| && j != i ==> j < |plans| && b.plans[j] == plans[j]
    requires b.wakeUps == seen + (if b.tickled then 1 else 0)
    requires b.tickled || NoneDue(plans, d)
    ensures var c := Entered(b, i);
            c.wakeUps == seen + (if c.tickled then 1 else 0) && (c.tickled || NoneDue(c.plans, d))
  {
    if !b.tickled && !First(b.plans, i) {
      var j :| 0 <= j < |b.plans| && j != i && b.plans[j].queued
               && !Earlier(b.plans[i].next, i, b.plans[j].next, j);
      assert plans[j].queued;
    }
  }

  lemma ActQueued(b: Book, a: Action, before: nat, now: nat)
    requires Queued(b.plans, before) && before <= now
    ensures Queued(Act(b, a, now).plans, now)
  {
    hide First;
  }

  lemma ExpireLater(b: Book, now: nat, d: Deadline)
    requires NoneDue(b.plans, d)
    ensures NoneDue(Act(b, Expire, now).plans, d)
  {
  }

  lemma RefreshLater(b: Book, i: nat, before: nat, now: nat, d: Deadline)
    requires Queued(b.plans, before) && before <= now && NoneDue(b.plans, d)
    ensures NoneDue(Act(b, Refresh(i), now).plans, d)
  {
  }

  lemma CancelLater(b: Book, i: nat, now: nat, d: Deadline)
    requires NoneDue(b.plans, d)
    ensures NoneDue(Act(b, Cancel(i), now).plans, d)
  {
  }

  lemma ActMinded(b: Book, a: Action, before: nat, now: nat, d: Deadline, seen: nat)
    requires Queued(b.plans, before) && before <= now && !a.Poll?
    requires b.wakeUps == seen + (if b.tickled then 1 else 0) && (b.tickled || NoneDue(b.plans, d))
    ensures var c := Act(b, a, now);
            c.wakeUps == seen + (if c.tickled then 1 else 0) && (c.tickled || NoneDue(c.plans, d))
  {
    match a
    case Add(ms, cb, recurring) =>
      hide NoneDue, Queued;
      EnteredMinded(b.plans, b.(plans := b.plans + [Plan(now + ms, ms, recurring, cb, true)]), |b.plans|, d, seen);
    case Reset(i, ms, fromNow) =>
      hide NoneDue, Queued;
      if i < |b.plans| && b.plans[i].cb != Empty && !(ms == b.plans[i].ms && !fromNow) {
        var start := if fromNow then now else b.plans[i].next - b.plans[i].ms;
        EnteredMinded(b.plans, b.(plans := b.plans[i := b.plans[i].(next := start + ms, ms := ms)]), i, d, seen);
      }
    case Cancel(i) => hide NoneDue; if !b.tickled { CancelLater(b, i, now, d); }
    case Refresh(i) => hide NoneDue; if !b.tickled { RefreshLater(b, i, before, now, d); }
    case Expire => hide NoneDue; if !b.tickled { ExpireLater(b, now, d); }
  }

  lemma PollMinded(w: Watch, wait: nat)
    requires Minded(w)
    ensures Minded(Next(w, wait, Poll))
  {
    hide LeastOf;
  }

  lemma NextMinded(w: Watch, wait: nat, a: Action)
    requires Minded(w) && Queued(w.book.plans, w.now)
    ensures Minded(Next(w, wait, a)) && Queued(Next(w, wait, a).book.plans, w.now + wait)
  {
    hide Queued, LeastOf, NoEarlier, NoneDue, Act;
    ActQueued(w.book, a, w.now, w.now + wait);
    if a.Poll? {
      PollMinded(w, wait);
    } else {
      NoneDueMeans(w.book.plans, w.polled);
      NoneDueMeans(Act(w.book, a, w.now + wait).plans, w.polled);
      ActMinded(w.book, a, w.now, w.now + wait, w.polled, w.seen);
    }
  }

  lemma {:induction false} AfterMinded(start: nat, acts: seq<(nat, Action)>, k: nat)
    requires k <= |acts|
    ensures Minded(After(start, acts, k)) && Queued(After(start, acts, k).book.plans, After(start, acts, k).now)
  {
    if k > 0 {
      AfterMinded(start, acts, k - 1);
      NextMinded(After(start, acts, k - 1), acts[k - 1].0, acts[k - 1].1);
    }
  }

  function Polls(acts: seq<(nat, Action)>, k: nat): nat
    requires k <= |acts|
  {
    if k == 0 then 0 else Polls(acts, k - 1) + if acts[k - 1].1.Poll? then 1 else 0
  }

  /** The earliest deadline at the last of the findings. */
  function Known(found: seq<Finding>): Deadline {
    if |found| == 0 then Never else found[|found| - 1].earliest
  }

  predicate Heard(f: Finding) {
    0 <= f.wakeUps <= 1 && (f.wakeUps == 0 ==> NoEarlier(f.earliest, f.before))
  }

  /** Each finding starts where the last ended, and at most one wake-up lies between two; if there is none,
      no deadline has become earlier. */
  ghost predicate Unmissed(found: seq<Finding>) {
    forall f :: 0 <= f < |found| ==> Heard(found[f]) && found[f].before == Known(found[..f])
  }

  lemma OneMore(found: seq<Finding>, f: Finding)
    requires Unmissed(found) && Heard(f) && f.before == Known(found)
    ensures Unmissed(found + [f]) && Known(found + [f]) == f.earliest
  {
    hide Heard;
    var more := found + [f];
    assert more[|found|] == f && more[..|found|] == found;
    forall k | 0 <= k < |found| ensures more[k] == found[k] && more[..k] == found[..k] {}
  }

  lemma PollOnly(b: Book, now: nat)
    ensures Act(b, Poll, now) == b.(tickled := false)
  {
  }

  lemma NextUnmissed(w: Watch, wait: nat, a: Action)
    requires Minded(w) && Unmissed(w.found) && w.polled == Known(w.found)
    ensures Unmissed(Next(w, wait, a).found) && Next(w, wait, a).polled == Known(Next(w, wait, a).found)
    ensures |Next(w, wait, a).found| == |w.found| + if a.Poll? then 1 else 0
  {
    hide LeastOf, Unmissed, NoEarlier, Act, Known;
    if a.Poll? {
      var d := LeastOf(w.book.plans);
      PollOnly(w.book, w.now + wait);
      OneMore(w.found, Finding(w.polled, d, w.book.wakeUps - w.seen, Sleep(d, w.now + wait)));
    }
  }

  /** The wake-up is never missed: under a clock that never goes back, through any operations, every poll
      leaves its finding, and the findings are as above. */
  lemma {:induction false} WakeUpNotMissed(start: nat, acts: seq<(nat, Action)>, k: nat)
    requires k <= |acts|
    ensures |After(start, acts, k).found| == Polls(acts, k)
    ensures Unmissed(After(start, acts, k).found) && After(start, acts, k).polled == Known(After(start, acts, k).found)
  {
    if k > 0 {
      hide Unmissed, Minded, Next;
      WakeUpNotMissed(start, acts, k - 1);
      AfterMinded(start, acts, k - 1);
      NextUnmissed(After(start, acts, k - 1), acts[k - 1].0, acts[k - 1].1);
    }
  }

  /** The manager holds exactly what the book says. */
  ghost predicate Holds(m: TimerManager, handles: seq<Timer>, b: Book)
    reads m, handles
  {
    && |handles| == |b.plans| && m.tickled == b.tickled && m.wakeUps == b.wakeUps
    && (forall t :: t in m.made + m.blank ==> t in handles)
    && (forall t :: t in handles ==> t in m.made || t in m.blank)
    && Kept(m.timers, handles, b.plans)
  }

  lemma HoldsNothing(m: TimerManager, b: Book)
    requires b == Book([], false, 0) && m.timers == [] && m.made == {} && m.blank == {} && !m.tickled && m.wakeUps == 0
    ensures Holds(m, [], b)
  {
  }

  ghost predicate Kept(ts: seq<Timer>, handles: seq<Timer>, plans: seq<Plan>)
    reads handles
  {
    && |handles| == |plans|
    && (forall t :: t in ts ==> t in handles)
    && forall i :: 0 <= i < |handles| ==>
         && handles[i].address == i
         && plans[i] == Plan(handles[i].next, handles[i].ms, handles[i].recurring, handles[i].cb, handles[i] in ts)
  }

  lemma FrontIsFirst(ts: seq<Timer>, handles: seq<Timer>, plans: seq<Plan>, i: nat)
    requires Ordered(ts) && Kept(ts, handles, plans) && i < |handles| && handles[i] in ts
    ensures ts[0] == handles[i] <==> First(plans, i)
  {
    if ts[0] == handles[i] {
      forall j | 0 <= j < |plans| && j != i && plans[j].queued
        ensures Earlier(plans[i].next, i, plans[j].next, j)
      {
        var k :| 0 <= k < |ts| && ts[k] == handles[j];
        OrderedPair(ts, 0, k);
      }
    } else {
      var k :| 0 <= k < |ts| && ts[k] == handles[i];
      OrderedPair(ts, 0, k);
      assert ts[0] in ts;
      var j :| 0 <= j < |handles| && handles[j] == ts[0];
      assert plans[j].queued;
    }
  }

  lemma EarliestIsLeastOf(ts: seq<Timer>, handles: seq<Timer>, plans: seq<Plan>)
    requires Ordered(ts) && Kept(ts, handles, plans)
    ensures Earliest(ts) == LeastOf(plans)
  {
    if ts != [] {
      assert ts[0] in ts;
      var j :| 0 <= j < |handles| && handles[j] == ts[0];
      assert plans[j].queued;
      var i :| 0 <= i < |plans| && plans[i].queued && plans[i].next == LeastOf(plans).time;
      var k :| 0 <= k < |ts| && ts[k] == handles[i];
      OrderedPair(ts, 0, k);
    }
  }

  method PerformAdd(m: TimerManager, handles: seq<Timer>, ghost b: Book, now: nat, ms: nat, cb: Callback, recurring: bool)
    returns (more: seq<Timer>)
    requires m.Valid() && m.clock <= now && Holds(m, handles, b)
    modifies m
    ensures m.Valid() && m.clock <= now && Holds(m, more, Act(b, Add(ms, cb, recurring), now))
    ensures forall k :: 0 <= k < |more| ==> more[k] in handles || fresh(more[k])
  {
    hide Registered, Paced, First, Ordered;
    var t := m.AddTimer(|handles|, now, ms, cb, recurring);
    more := handles + [t];
    ghost var plans := b.plans + [Plan(now + ms, ms, recurring, cb, true)];
    assert Kept(m.timers, more, plans);
    FrontIsFirst(m.timers, more, plans, |handles|);
  }

  method PerformReset(m: TimerManager, handles: seq<Timer>, ghost b: Book, now: nat, i: nat, ms: nat, fromNow: bool)
    requires m.Valid() && m.clock <= now && Holds(m, handles, b) && i < |handles|
    modifies m, handles
    ensures m.Valid() && m.clock <= now && Holds(m, handles, Act(b, Reset(i, ms, fromNow), now))
  {
    hide Registered, Paced, First, Ordered;
    var t := handles[i];
    AddressesDiffer(m.timers, m.made, m.blank, t);
    var _ := m.Reset(t, ms, fromNow, now);
    if t.cb != Empty && (t.ms != b.plans[i].ms || fromNow) {
      ghost var start := if fromNow then now else b.plans[i].next - b.plans[i].ms;
      ghost var plans := b.plans[i := b.plans[i].(next := start + ms, ms := ms)];
      assert Kept(m.timers, handles, plans);
      FrontIsFirst(m.timers, handles, plans, i);
    }
  }

  lemma ExpiredKept(was: seq<Timer>, ts: seq<Timer>, it: nat, handles: seq<Timer>, plans: seq<Plan>, now: nat)
    requires Ran(was, ts, it) && |handles| == |plans|
    requires forall i :: 0 <= i < |handles| ==>
               && handles[i].address == i && plans[i].queued == (handles[i] in was)
               && plans[i].ms == handles[i].ms && plans[i].recurring == handles[i].recurring
    requires forall k :: 0 <= k < |was| ==> was[k].address < |handles| && handles[was[k].address] == was[k]
    requires forall k :: 0 <= k < |was| ==>
               var p := plans[was[k].address];
               && (p.next <= now <==> k < it)
               && was[k].next == (if k < it && p.recurring then now + p.ms else p.next)
               && was[k].cb == (if k < it && !p.recurring then Empty else p.cb)
    requires forall i :: 0 <= i < |handles| && handles[i] !in was ==>
               handles[i].next == plans[i].next && handles[i].cb == plans[i].cb
    ensures Kept(ts, handles, AllExpired(plans, now))
  {
    hide Ran;
    forall i | 0 <= i < |handles|
      ensures var t := handles[i];
              Plan(t.next, t.ms, t.recurring, t.cb, t in ts) == Expired(plans[i], now)
    {
      var _ := RanWhere(was, ts, it, handles[i]);
    }
    forall t | t in ts ensures t in handles {
      var k := RanWhere(was, ts, it, t);
    }
  }

  lemma KeptParts(ts: seq<Timer>, handles: seq<Timer>, plans: seq<Plan>)
    requires Kept(ts, handles, plans)
    ensures |handles| == |plans|
    ensures forall i :: 0 <= i < |handles| ==>
              && handles[i].address == i
              && plans[i] == Plan(handles[i].next, handles[i].ms, handles[i].recurring, handles[i].cb, handles[i] in ts)
    ensures forall k :: 0 <= k < |ts| ==> ts[k] in handles && ts[k].address < |handles| && handles[ts[k].address] == ts[k]
  {
    forall k | 0 <= k < |ts| ensures ts[k] in handles && ts[k].address < |handles| && handles[ts[k].address] == ts[k] {
      assert ts[k] in ts;
    }
  }

  /** The plans that are due, by deadline and then by address. */
  ghost predicate IsDue(plans: seq<Plan>, now: nat, order: seq<nat>) {
    && (forall i :: 0 <= i < |order| ==> order[i] < |plans|)
    && (forall i, j :: 0 <= i < j < |order| ==>
          || plans[order[i]].next < plans[order[j]].next
          || (plans[order[i]].next == plans[order[j]].next && order[i] < order[j]))
    && forall p :: 0 <= p < |plans| ==> (p in order <==> plans[p].queued && plans[p].next <= now)
  }

  function CallsIn(plans: seq<Plan>, order: seq<nat>): (cbs: seq<Callback>)
    requires forall i :: 0 <= i < |order| ==> order[i] < |plans|
    ensures |cbs| == |order| && forall i :: 0 <= i < |order| ==> cbs[i] == plans[order[i]].cb
  {
    seq(|order|, i requires 0 <= i < |order| => plans[order[i]].cb)
  }

  /** There is only one such order. */
  lemma DueIsUnique(plans: seq<Plan>, now: nat, a: seq<nat>, b: seq<nat>)
    requires IsDue(plans, now, a) && IsDue(plans, now, b)
    ensures a == b
  {
    SameOrder(plans, a, b);
  }

  lemma {:induction false} SameOrder(plans: seq<Plan>, a: seq<nat>, b: seq<nat>)
    requires forall i :: 0 <= i < |a| ==> a[i] < |plans|
    requires forall i :: 0 <= i < |b| ==> b[i] < |plans|
    requires forall p :: p in a <==> p in b
    requires forall i, j :: 0 <= i < j < |a| ==> Earlier(plans[a[i]].next, a[i], plans[a[j]].next, a[j])
    requires forall i, j :: 0 <= i < j < |b| ==> Earlier(plans[b[i]].next, b[i], plans[b[j]].next, b[j])
    ensures a == b
  {
    if a == [] {
      assert forall i :: 0 <= i < |b| ==> b[i] in b;
    } else {
      assert a[0] in b && b[0] in a;
      var k :| 0 <= k < |b| && b[k] == a[0];
      var l :| 0 <= l < |a| && a[l] == b[0];
      assert a[0] == b[0];
      forall p ensures p in a[1..] <==> p in b[1..] {
        TailHas(plans, a, p);
        TailHas(plans, b, p);
      }
      SameOrder(plans, a[1..], b[1..]);
      assert a == [a[0]] + a[1..] && b == [b[0]] + b[1..];
    }
  }

  lemma TailHas(plans: seq<Plan>, a: seq<nat>, p: nat)
    requires a != [] && forall i :: 0 <= i < |a| ==> a[i] < |plans|
    requires forall i, j :: 0 <= i < j < |a| ==> Earlier(plans[a[i]].next, a[i], plans[a[j]].next, a[j])
    ensures p in a[1..] <==> p in a && p != a[0]
  {
    if p in a && p != a[0] {
      var i :| 0 <= i < |a| && a[i] == p;
      assert a[1..][i - 1] == p;
    }
  }

  /** The addresses of the timers in the set, in their order. */
  lemma SetOrder(ts: seq<Timer>, handles: seq<Timer>, plans: seq<Plan>) returns (order: seq<nat>)
    requires Ordered(ts) && Kept(ts, handles, plans)
    ensures |order| == |ts| && forall k :: 0 <= k < |ts| ==>
              order[k] == ts[k].address < |plans| && plans[order[k]].next == ts[k].next && plans[order[k]].cb == ts[k].cb
    ensures forall i, j :: 0 <= i < j < |order| ==>
              Earlier(plans[order[i]].next, order[i], plans[order[j]].next, order[j])
    ensures forall p :: 0 <= p < |plans| ==> (p in order <==> plans[p].queued)
  {
    KeptParts(ts, handles, plans);
    order := seq(|ts|, k requires 0 <= k < |ts| => ts[k].address);
    forall i, j | 0 <= i < j < |order| ensures Earlier(plans[order[i]].next, order[i], plans[order[j]].next, order[j]) {
      OrderedPair(ts, i, j);
    }
    forall p | 0 <= p < |plans| ensures p in order <==> plans[p].queued {
      if plans[p].queued {
        var k :| 0 <= k < |ts| && ts[k] == handles[p];
        assert order[k] == p;
      }
      if p in order {
        var k :| 0 <= k < |ts| && order[k] == p;
        assert ts[k] in ts && handles[p] == ts[k];
      }
    }
  }

  lemma DueFront(plans: seq<Plan>, now: nat, order: seq<nat>, it: nat)
    requires it <= |order| && forall k :: 0 <= k < |order| ==> order[k] < |plans|
    requires forall i, j :: 0 <= i < j < |order| ==>
               Earlier(plans[order[i]].next, order[i], plans[order[j]].next, order[j])
    requires forall p :: 0 <= p < |plans| ==> (p in order <==> plans[p].queued)
    requires forall k :: 0 <= k < |order| ==> (plans[order[k]].next <= now <==> k < it)
    ensures IsDue(plans, now, order[..it])
  {
    var due := order[..it];
    forall p | 0 <= p < |plans| ensures p in due <==> plans[p].queued && plans[p].next <= now {
      if p in order {
        var k :| 0 <= k < |order| && order[k] == p;
        if k < it { assert due[k] == p; }
      }
    }
  }

  method PerformExpire(m: TimerManager, handles: seq<Timer>, ghost b: Book, now: nat)
    returns (cbs: seq<Callback>, ghost order: seq<nat>)
    requires m.Valid() && m.clock <= now && Holds(m, handles, b)
    modifies m, handles
    ensures m.Valid() && m.clock <= now && Holds(m, handles, Act(b, Expire, now))
    ensures IsDue(b.plans, now, order) && cbs == CallsIn(b.plans, order)
  {
    hide Registered, Paced, First, Ordered, Ran, Kept, AllExpired, Earliest, NoEarlier, IsDue;
    KeptParts(m.timers, handles, b.plans);
    ghost var was := m.timers;
    ghost var all := SetOrder(was, handles, b.plans);
    cbs := m.ListExpiredCb(now, 0);
    order := all[..|cbs|];
    DueFront(b.plans, now, all, |cbs|);
    ExpiredKept(was, m.timers, |cbs|, handles, b.plans, now);
  }

  method Perform(m: TimerManager, handles: seq<Timer>, ghost b: Book, a: Action, now: nat) returns (more: seq<Timer>)
    requires m.Valid() && m.clock <= now && Holds(m, handles, b) && !a.Poll?
    modifies m, handles
    ensures m.Valid() && m.clock <= now && Holds(m, more, Act(b, a, now))
    ensures forall k :: 0 <= k < |more| ==> more[k] in handles || fresh(more[k])
  {
    hide Ordered, Registered, Paced, First;
    more := handles;
    match a
    case Add(ms, cb, recurring) => more := PerformAdd(m, handles, b, now, ms, cb, recurring);
    case Cancel(i) => if i < |handles| { var _ := m.Cancel(handles[i]); }
    case Refresh(i) => if i < |handles| { var _ := m.Refresh(handles[i], now); }
    case Reset(i, ms, fromNow) => if i < |handles| { PerformReset(m, handles, b, now, i, ms, fromNow); }
    case Expire => var _, _ := PerformExpire(m, handles, b, now);
    case Poll =>
  }

  /** One poll, by a poller that remembers the earliest deadline and the wake-ups at its last. */
  method PerformPoll(m: TimerManager, handles: seq<Timer>, ghost b: Book, now: nat, polled: Deadline, seen: int)
    returns (f: Finding)
    requires m.Valid() && m.clock <= now && Holds(m, handles, b)
    modifies m
    ensures m.Valid() && m.clock <= now && Holds(m, handles, Act(b, Poll, now)) && m.wakeUps == b.wakeUps
    ensures var d := LeastOf(b.plans); f == Finding(polled, d, b.wakeUps - seen, Sleep(d, now))
  {
    hide Registered, Paced, LeastOf;
    EarliestIsLeastOf(m.timers, handles, b.plans);
    hide Ordered, Kept;
    var earliest, wakeUps := Earliest(m.timers), m.wakeUps;
    var sleep := m.GetNextTimer(now);
    f := Finding(polled, earliest, wakeUps - seen, sleep);
  }

  /** The manager and what its poller remembers, beside the watch. */
  ghost predicate Follows(m: TimerManager, handles: seq<Timer>, w: Watch, now: nat, polled: Deadline, seen: int)
    reads m, m.made, m.blank, m.timers, handles
  {
    m.Valid() && m.clock <= now && Holds(m, handles, w.book) && w.now == now && w.polled == polled && w.seen == seen
  }

  method DriveOne(m: TimerManager, handles: seq<Timer>, ghost w: Watch, now: nat, polled: Deadline, seen: int,
                  a: Action, ghost wait: nat)
    returns (more: seq<Timer>, polledNow: Deadline, seenNow: int, found: seq<Finding>)
    requires m.Valid() && m.clock <= now && Holds(m, handles, w.book) && w.polled == polled && w.seen == seen
    requires now == w.now + wait
    modifies m, handles
    ensures Follows(m, more, Next(w, wait, a), now, polledNow, seenNow) && Next(w, wait, a).found == w.found + found
    ensures forall k :: 0 <= k < |more| ==> more[k] in handles || fresh(more[k])
  {
    hide Act, LeastOf, Ordered, Registered, Paced, Earliest, NoEarlier, Holds, Kept;
    more, polledNow, seenNow, found := handles, polled, seen, [];
    if a.Poll? {
      var f := PerformPoll(m, handles, w.book, now, polled, seen);
      PollOnly(w.book, now);
      polledNow, seenNow, found := f.earliest, m.wakeUps, [f];
    } else {
      more := Perform(m, handles, w.book, a, now);
    }
  }

  /** The manager, through any operations and polls under a clock that never goes back, is what the book says,
      and the poller finds at every poll what the book says. */
  method Drive(start: nat, acts: seq<(nat, Action)>)
    returns (m: TimerManager, handles: seq<Timer>, found: seq<Finding>)
    ensures m.Valid() && Holds(m, handles, After(start, acts, |acts|).book)
    ensures found == After(start, acts, |acts|).found
  {
    hide Act, LeastOf, Ordered, Registered, Paced, Earliest, NoEarlier, Next;
    m := new TimerManager(start);
    handles, found := [], [];
    var now, polled := start, Never;
    var seen: int := 0;
    HoldsNothing(m, After(start, acts, 0).book);
    hide Holds, Kept;
    var i := 0;
    while i < |acts|
      invariant i <= |acts| && fresh(m) && fresh(handles)
      invariant Follows(m, handles, After(start, acts, i), now, polled, seen) && found == After(start, acts, i).found
    {
      ghost var w := After(start, acts, i);
      now := now + acts[i].0;
      var more;
      handles, polled, seen, more := DriveOne(m, handles, w, now, polled, seen, acts[i].1, acts[i].0);
      found := found + more;
      i := i + 1;
    }
  }
}
