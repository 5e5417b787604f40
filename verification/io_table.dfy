/**
 * The contexts of src/fiber/iomanager.cpp as rows: for each the registered events and the waiters behind them,
 * and how what is pending and who waits change when one row does.
 */
module IoTable {

  datatype Event = READ | WRITE

  /** What an EventContext holds: nothing, a fiber to resume, or a callback to run. */
  datatype Waiter = Nobody | Fiber(id: int) | Call(id: int)

  /** The content of an FdContext. */
  datatype Entry = Entry(events: set<Event>, read: Waiter, write: Waiter)

  const FREE := Entry({}, Nobody, Nobody)

  function Slot(c: Entry, e: Event): Waiter {
    match e
    case READ => c.read
    case WRITE => c.write
  }

  function With(c: Entry, e: Event, w: Waiter): Entry {
    match e
    case READ => Entry(c.events + {e}, w, c.write)
    case WRITE => Entry(c.events + {e}, c.read, w)
  }

  function Without(c: Entry, e: Event): Entry {
    match e
    case READ => Entry(c.events - {e}, Nobody, c.write)
    case WRITE => Entry(c.events - {e}, c.read, Nobody)
  }

  /** Exactly the registered events have a waiter. */
  ghost predicate SlotsOk(c: Entry) {
    forall e :: e in c.events <==> Slot(c, e) != Nobody
  }

  ghost function Waiting(c: Entry): multiset<Waiter> {
    (if READ in c.events then multiset{c.read} else multiset{})
    + (if WRITE in c.events then multiset{c.write} else multiset{})
  }

  type Table = seq<Entry>

  /** The number of registered (fd, event) pairs. */
  ghost function Pending(t: Table): nat {
    if t == [] then 0 else Pending(t[..|t| - 1]) + |t[|t| - 1].events|
  }

  /** The waiters of all registered events. */
  ghost function AllWaiting(t: Table): multiset<Waiter> {
    if t == [] then multiset{} else AllWaiting(t[..|t| - 1]) + Waiting(t[|t| - 1])
  }

  lemma Shifted<T>(a: multiset<T>, w: multiset<T>, b: multiset<T>, c: multiset<T>, x: multiset<T>)
    requires a + w == b + c
    ensures (a + x) + w == (b + x) + c
  {
    assert (a + x) + w == (a + w) + x;
    assert (b + x) + c == (b + c) + x;
  }

  lemma {:induction false} TableUpdate(t: Table, fd: nat, c: Entry)
    requires fd < |t|
    ensures Pending(t[fd := c]) + |t[fd].events| == Pending(t) + |c.events|
    ensures AllWaiting(t[fd := c]) + Waiting(t[fd]) == AllWaiting(t) + Waiting(c)
  {
    hide Waiting;
    var u, n := t[fd := c], |t| - 1;
    if fd == n {
      assert u[..n] == t[..n];
    } else {
      TableUpdate(t[..n], fd, c);
      assert u[..n] == t[..n][fd := c];
      Shifted(AllWaiting(u[..n]), Waiting(t[fd]), AllWaiting(t[..n]), Waiting(c), Waiting(t[n]));
    }
  }

  function Grown(t: Table, size: nat): Table {
    if size <= |t| then t else t + seq(size - |t|, i => FREE)
  }

  /** Every waiter that came in still waits, was handed to the scheduler, or was dropped. */
  ghost predicate Balanced(added: multiset<Waiter>, t: Table, scheduled: multiset<Waiter>, dropped: multiset<Waiter>) {
    added == AllWaiting(t) + scheduled + dropped
  }

  /** What was handed to the scheduler waits in its list, is being run, or has been run. */
  ghost predicate Booked(scheduled: multiset<Waiter>, tasks: seq<Waiter>, running: multiset<Waiter>, done: multiset<Waiter>) {
    scheduled == multiset(tasks) + running + done
  }

  lemma BookedMore(scheduled: multiset<Waiter>, tasks: seq<Waiter>, running: multiset<Waiter>, done: multiset<Waiter>, w: Waiter)
    requires Booked(scheduled, tasks, running, done)
    ensures Booked(scheduled + multiset{w}, tasks + [w], running, done)
  {
    forall x ensures (scheduled + multiset{w})[x] == (multiset(tasks + [w]) + running + done)[x] {
      assert multiset(tasks + [w]) == multiset(tasks) + multiset{w};
      assert scheduled[x] == (multiset(tasks) + running + done)[x];
    }
  }

  lemma BookedTaken(scheduled: multiset<Waiter>, tasks: seq<Waiter>, running: multiset<Waiter>, done: multiset<Waiter>)
    requires Booked(scheduled, tasks, running, done) && tasks != []
    ensures Booked(scheduled, tasks[1..], running + multiset{tasks[0]}, done)
    ensures |running + multiset{tasks[0]}| == |running| + 1 && multiset(tasks) == multiset{tasks[0]} + multiset(tasks[1..])
  {
    assert tasks == [tasks[0]] + tasks[1..];
    assert multiset(tasks) == multiset{tasks[0]} + multiset(tasks[1..]);
  }

  lemma BookedDone(scheduled: multiset<Waiter>, tasks: seq<Waiter>, running: multiset<Waiter>, done: multiset<Waiter>, w: Waiter)
    requires Booked(scheduled, tasks, running, done) && w in running
    ensures Booked(scheduled, tasks, running - multiset{w}, done + multiset{w})
    ensures |running - multiset{w}| == |running| - 1
  {
    assert running == (running - multiset{w}) + multiset{w};
  }

  lemma NoneWaits()
    ensures Waiting(FREE) == multiset{} && FREE.events == {}
  {
  }

  lemma GrownOne(t: Table, size: nat)
    requires size > |t|
    ensures |Grown(t, size)| == size && Grown(t, size)[..size - 1] == Grown(t, size - 1) && Grown(t, size)[size - 1] == FREE
  {
  }

  lemma {:induction false} GrownSame(t: Table, size: nat)
    ensures Pending(Grown(t, size)) == Pending(t) && AllWaiting(Grown(t, size)) == AllWaiting(t)
    decreases size
  {
    if size > |t| {
      GrownSame(t, size - 1);
      GrownOne(t, size);
      NoneWaits();
      hide Waiting, Grown;
      assert AllWaiting(Grown(t, size - 1)) + multiset{} == AllWaiting(Grown(t, size - 1));
    }
  }

  lemma {:induction false} NothingPending(t: Table)
    ensures Pending(t) == 0 <==> forall fd :: 0 <= fd < |t| ==> t[fd].events == {}
  {
    if t != [] {
      var f := t[..|t| - 1];
      NothingPending(f);
      forall fd | 0 <= fd < |f| ensures f[fd] == t[fd] {}
      if t[|t| - 1].events != {} { assert |t[|t| - 1].events| > 0; }
    }
  }

  /** The waiter of one event, if it is registered. */
  ghost function WaitingFor(c: Entry, e: Event): multiset<Waiter> {
    if e in c.events then multiset{Slot(c, e)} else multiset{}
  }

  lemma WithCounts(c: Entry, e: Event, w: Waiter)
    requires SlotsOk(c) && e !in c.events && w != Nobody
    ensures SlotsOk(With(c, e, w)) && |With(c, e, w).events| == |c.events| + 1
    ensures Waiting(With(c, e, w)) + (multiset{} + multiset{}) == Waiting(c) + multiset{w}
  {
    var d := With(c, e, w);
    var other := if e == READ then WRITE else READ;
    assert WaitingFor(d, e) == multiset{w} && WaitingFor(c, e) == multiset{};
    assert WaitingFor(d, other) == WaitingFor(c, other);
    OneRowMoves(WaitingFor(c, other), multiset{w}, multiset{});
    OneRowMoves(multiset{}, multiset{w}, WaitingFor(c, other));
    assert Waiting(c) == if e == READ then multiset{} + WaitingFor(c, other) else WaitingFor(c, other) + multiset{};
    assert Waiting(d) == if e == READ then multiset{w} + WaitingFor(c, other) else WaitingFor(c, other) + multiset{w};
  }

  lemma OneRowMoves(a: multiset<Waiter>, w: multiset<Waiter>, b: multiset<Waiter>)
    ensures a + w + b + (multiset{} + multiset{}) == a + b + w
    ensures a + w + multiset{} == a + w && multiset{} + w == w && w + multiset{} == w
    ensures a + b == b + a && a + w == w + a
  {
  }

  lemma WithoutCounts(c: Entry, e: Event)
    requires SlotsOk(c) && e in c.events
    ensures SlotsOk(Without(c, e)) && |Without(c, e).events| == |c.events| - 1
    ensures Waiting(Without(c, e)) + (multiset{Slot(c, e)} + multiset{}) == Waiting(c) + multiset{}
    ensures Waiting(Without(c, e)) + (multiset{} + multiset{Slot(c, e)}) == Waiting(c) + multiset{}
  {
    hide SlotsOk, With, Without, Waiting, Slot;
    var d := Without(c, e);
    WithoutBack(c, e);
    WithCounts(d, e, Slot(c, e));
    SameEmpty(Waiting(d), Waiting(c), multiset{Slot(c, e)});
  }

  lemma WithoutBack(c: Entry, e: Event)
    requires SlotsOk(c) && e in c.events
    ensures e !in Without(c, e).events && With(Without(c, e), e, Slot(c, e)) == c && SlotsOk(Without(c, e))
    ensures Slot(c, e) != Nobody
  {
    var d := Without(c, e);
    var other := if e == READ then WRITE else READ;
    assert Slot(d, other) == Slot(c, other) && (other in d.events <==> other in c.events);
    assert With(d, e, Slot(c, e)).events == c.events;
  }

  lemma SameEmpty(d: multiset<Waiter>, c: multiset<Waiter>, w: multiset<Waiter>)
    requires c + (multiset{} + multiset{}) == d + w
    ensures d + (w + multiset{}) == c + multiset{} && d + (multiset{} + w) == c + multiset{}
  {
    assert c + (multiset{} + multiset{}) == c && c + multiset{} == c;
    assert w + multiset{} == w && multiset{} + w == w;
  }

  /** The waiters of the registered events in `ready`, in the order in which they are triggered. */
  function Waiters(c: Entry, ready: set<Event>): seq<Waiter> {
    (if READ in ready && READ in c.events then [c.read] else [])
    + (if WRITE in ready && WRITE in c.events then [c.write] else [])
  }

  /** The row after the registered events in `ready` were triggered. */
  function Fired(c: Entry, ready: set<Event>): Entry {
    Entry(c.events - ready, if READ in ready && READ in c.events then Nobody else c.read,
                           if WRITE in ready && WRITE in c.events then Nobody else c.write)
  }

  lemma TwoEvents(s: set<Event>)
    ensures s == (if READ in s then {READ} else {}) + (if WRITE in s then {WRITE} else {})
  {
    forall e ensures e in s <==> e in (if READ in s then {READ} else {}) + (if WRITE in s then {WRITE} else {}) {
      match e
      case READ =>
      case WRITE =>
    }
  }

  /** Triggering all registered events frees the row. */
  lemma FiredAll(c: Entry)
    requires SlotsOk(c)
    ensures Fired(c, c.events) == FREE && Waiters(c, c.events) == Waiters(c, {READ, WRITE})
    ensures |Waiters(c, c.events)| == |c.events|
  {
    TwoEvents(c.events);
    assert READ in c.events <==> Slot(c, READ) != Nobody;
    assert WRITE in c.events <==> Slot(c, WRITE) != Nobody;
  }

  lemma FiredSteps(c: Entry, ready: set<Event>)
    ensures var d := if READ in ready then Without(c, READ) else c;
            && (ready <= c.events ==> (if WRITE in ready then Without(d, WRITE) else d) == Fired(c, ready))
            && (ready <= c.events <==> (READ in ready ==> READ in c.events) && (WRITE in ready ==> WRITE in c.events))
            && (WRITE in d.events <==> WRITE in c.events) && Slot(d, WRITE) == Slot(c, WRITE)
            && (ready * c.events == {} ==> Fired(c, ready) == c && Waiters(c, ready) == [])
            && (ready <= c.events ==>
                  Waiters(c, ready) == (if READ in ready then [Slot(c, READ)] else [])
                                       + (if WRITE in ready then [Slot(c, WRITE)] else []))
  {
    TwoEvents(ready);
    TwoEvents(c.events);
    TwoEvents(c.events - ready);
    assert ready * c.events == {} ==> c.events - ready == c.events;
    assert READ in ready && READ in c.events ==> READ in ready * c.events;
    assert WRITE in ready && WRITE in c.events ==> WRITE in ready * c.events;
  }

  lemma {:induction false} NobodyWaiting(t: Table)
    requires forall fd :: 0 <= fd < |t| ==> SlotsOk(t[fd])
    ensures Pending(t) == 0 ==> AllWaiting(t) == multiset{}
    ensures Pending(t) == 0 ==> forall fd, e :: 0 <= fd < |t| ==> Slot(t[fd], e) == Nobody
  {
    if t != [] {
      var f := t[..|t| - 1];
      forall fd | 0 <= fd < |f| ensures f[fd] == t[fd] {}
      NobodyWaiting(f);
      NothingPending(t);
    }
  }

  lemma NothingBooked(scheduled: multiset<Waiter>, running: multiset<Waiter>, done: multiset<Waiter>)
    requires Booked(scheduled, [], running, done) && |running| == 0
    ensures scheduled == done
  {
    assert running == multiset{};
  }

  lemma NothingAdded(scheduled: multiset<Waiter>, dropped: multiset<Waiter>)
    ensures multiset{} + scheduled + dropped == scheduled + dropped
    ensures scheduled == multiset{} ==> multiset{} == multiset{} + scheduled + scheduled
  {
  }

  /** What one row gains or loses, the whole table gains or loses. */
  lemma Balance(after: multiset<Waiter>, row: multiset<Waiter>, before: multiset<Waiter>, newRow: multiset<Waiter>,
                gained: multiset<Waiter>, lost: multiset<Waiter>)
    requires after + row == before + newRow && newRow + lost == row + gained
    ensures after + lost == before + gained
  {
    assert (after + lost) + row == (after + row) + lost;
    assert (before + newRow) + lost == before + (newRow + lost);
    assert before + (row + gained) == (before + gained) + row;
    Cancels(after + lost, before + gained, row);
  }

  /** What comes in is added, and what leaves the table is scheduled or dropped. */
  lemma Accounts(added: multiset<Waiter>, before: multiset<Waiter>, scheduled: multiset<Waiter>, dropped: multiset<Waiter>,
                 after: multiset<Waiter>, gained: multiset<Waiter>, out: multiset<Waiter>, lost: multiset<Waiter>)
    requires added == before + scheduled + dropped && after + (out + lost) == before + gained
    ensures added + gained == after + (scheduled + out) + (dropped + lost)
  {
    var l, r := added + gained, after + (scheduled + out) + (dropped + lost);
    forall x ensures l[x] == r[x] {
      assert (after + (out + lost))[x] == (before + gained)[x];
      assert l[x] == before[x] + scheduled[x] + dropped[x] + gained[x];
      assert r[x] == after[x] + scheduled[x] + out[x] + dropped[x] + lost[x];
    }
  }

  /** The books stay balanced when one row changes. */
  lemma RowChanged(t: Table, fd: nat, d: Entry, gained: multiset<Waiter>, out: multiset<Waiter>, lost: multiset<Waiter>,
                   added: multiset<Waiter>, scheduled: multiset<Waiter>, dropped: multiset<Waiter>)
    requires fd < |t| && Balanced(added, t, scheduled, dropped)
    requires Waiting(d) + (out + lost) == Waiting(t[fd]) + gained
    ensures Pending(t[fd := d]) + |t[fd].events| == Pending(t) + |d.events|
    ensures Balanced(added + gained, t[fd := d], scheduled + out, dropped + lost)
    ensures added + multiset{} == added && scheduled + multiset{} == scheduled && dropped + multiset{} == dropped
  {
    hide Waiting, AllWaiting, Pending;
    TableUpdate(t, fd, d);
    Balance(AllWaiting(t[fd := d]), Waiting(t[fd]), AllWaiting(t), Waiting(d), gained, out + lost);
    Accounts(added, AllWaiting(t), scheduled, dropped, AllWaiting(t[fd := d]), gained, out, lost);
  }

  lemma RowEntered(t: Table, fd: nat, e: Event, w: Waiter, added: multiset<Waiter>, scheduled: multiset<Waiter>,
                   dropped: multiset<Waiter>)
    requires fd < |t| && Balanced(added, t, scheduled, dropped) && SlotsOk(t[fd]) && e !in t[fd].events && w != Nobody
    ensures Balanced(added + multiset{w}, t[fd := With(t[fd], e, w)], scheduled, dropped)
  {
    hide Waiting, Pending, Balanced, SlotsOk, With;
    WithCounts(t[fd], e, w);
    RowChanged(t, fd, With(t[fd], e, w), multiset{w}, multiset{}, multiset{}, added, scheduled, dropped);
  }

  lemma RowLeft(t: Table, fd: nat, e: Event, added: multiset<Waiter>, scheduled: multiset<Waiter>, dropped: multiset<Waiter>)
    requires fd < |t| && Balanced(added, t, scheduled, dropped) && SlotsOk(t[fd]) && e in t[fd].events
    ensures var w := multiset{Slot(t[fd], e)}; var u := t[fd := Without(t[fd], e)];
            Balanced(added, u, scheduled + w, dropped) && Balanced(added, u, scheduled, dropped + w)
  {
    hide Waiting, Pending, Balanced, SlotsOk, Without, Slot;
    WithoutCounts(t[fd], e);
    var w := multiset{Slot(t[fd], e)};
    RowChanged(t, fd, Without(t[fd], e), multiset{}, w, multiset{}, added, scheduled, dropped);
    RowChanged(t, fd, Without(t[fd], e), multiset{}, multiset{}, w, added, scheduled, dropped);
  }

  lemma Cancels<T>(a: multiset<T>, b: multiset<T>, c: multiset<T>)
    requires a + c == b + c
    ensures a == b
  {
    forall x ensures a[x] == b[x] { assert (a + c)[x] == a[x] + c[x] && (b + c)[x] == b[x] + c[x]; }
  }
}
