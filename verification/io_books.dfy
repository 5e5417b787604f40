/**
 * The manager of src/fiber/iomanager.cpp as a value: what is registered, which contexts the table still
 * reaches, and what becomes of every waiter. Every operation on a context is one step, whoever fetched it and
 * however long ago.
 */
module IoBooks {
  import Timing = TimerManagement
  import opened IoTable

  // The manager as a value.

  /** `fds` and `rows` are the descriptors and contents of all contexts ever made; `table` says which of them
      the rows of fdContexts_ point to. */
  datatype Io = Io(
    fds: seq<nat>,
    rows: Table,
    table: seq<nat>,
    tasks: seq<Waiter>,             // tasks_ of the scheduler
    running: multiset<Waiter>,      // what its threads run
    isStopped: bool,
    halted: bool,                   // CondPanic
    added: multiset<Waiter>,        // every waiter that addEvent took
    scheduled: multiset<Waiter>,    // every waiter of an event that was handed to the scheduler
    called: multiset<Waiter>,       // every callback of a timer that was
    dropped: multiset<Waiter>,      // every waiter that delEvent let go
    done: multiset<Waiter>)         // what the scheduler ran to its end

  /** epoll holds the descriptor for one of its contexts. */
  predicate Watched(io: Io, fd: nat) {
    exists k :: 0 <= k < |io.fds| && k < |io.rows| && io.fds[k] == fd && io.rows[k].events != {}
  }

  /** Each row of the table points to a context of its descriptor. */
  ghost predicate Laid(io: Io) {
    && |io.fds| == |io.rows| && 32 <= |io.table|
    && forall i :: 0 <= i < |io.table| ==> io.table[i] < |io.fds| && io.fds[io.table[i]] == i
  }

  /** Of the contexts of one descriptor at most one has events registered. */
  ghost predicate OneEach(io: Io) {
    forall j, k :: 0 <= j < k < |io.fds| && k < |io.rows| && io.fds[j] == io.fds[k] ==>
      io.rows[j].events == {} || io.rows[k].events == {}
  }

  /** Exactly the registered events have a waiter, every waiter that came in still waits, in the table or out of
      it, was handed to the scheduler, or was dropped; and what was handed over is listed, run, or done. */
  ghost predicate Good(io: Io) {
    && Laid(io) && OneEach(io)
    && (forall k :: 0 <= k < |io.rows| ==> SlotsOk(io.rows[k]))
    && Balanced(io.added, io.rows, io.scheduled, io.dropped)
    && Booked(io.scheduled + io.called, io.tasks, io.running, io.done)
  }

  function From(first: nat, n: nat): (s: seq<nat>)
    ensures |s| == n && forall i :: 0 <= i < n ==> s[i] == first + i
  {
    seq(n, i requires 0 <= i < n => first + i)
  }

  /** contextResize: a larger table gets new contexts; a smaller one no longer reaches the last ones, which live
      on. */
  function Resized(io: Io, size: nat): Io {
    if size <= |io.table| then io.(table := io.table[..size])
    else
      var n := size - |io.table|;
      io.(fds := io.fds + From(|io.table|, n), rows := Grown(io.rows, |io.rows| + n),
          table := io.table + From(|io.fds|, n))
  }

  function Entered(io: Io, k: nat, e: Event, w: Waiter): Io
    requires k < |io.rows|
  {
    io.(rows := io.rows[k := With(io.rows[k], e, w)], added := io.added + multiset{w})
  }

  function Dropped(io: Io, k: nat, e: Event): Io
    requires k < |io.rows|
  {
    io.(rows := io.rows[k := Without(io.rows[k], e)], dropped := io.dropped + multiset{Slot(io.rows[k], e)})
  }

  function Released(io: Io, k: nat, e: Event): Io
    requires k < |io.rows|
  {
    var w := Slot(io.rows[k], e);
    io.(rows := io.rows[k := Without(io.rows[k], e)], scheduled := io.scheduled + multiset{w}, tasks := io.tasks + [w])
  }

  /** epoll_ctl takes an event of the context: it changes what it has for the context, or adds a descriptor
      that it does not have. */
  predicate Takes(io: Io, k: nat)
    requires k < |io.rows| == |io.fds|
  {
    io.rows[k].events != {} || !Watched(io, io.fds[k])
  }

  /** addEvent from where it has the context; `ok` is false if epoll_ctl fails for a reason of its own. */
  function Attached(io: Io, k: nat, e: Event, w: Waiter, ok: bool): (Io, int)
    requires k < |io.rows| == |io.fds|
  {
    if e in io.rows[k].events then (io.(halted := true), -1)
    else if ok && Takes(io, k) then (Entered(io, k, e, w), 0)
    else (io, -1)
  }

  function Deleted(io: Io, k: nat, e: Event, ok: bool): (Io, bool)
    requires k < |io.rows|
  {
    if e in io.rows[k].events && ok then (Dropped(io, k, e), true) else (io, false)
  }

  function Cancelled(io: Io, k: nat, e: Event, ok: bool): (Io, bool)
    requires k < |io.rows|
  {
    if e in io.rows[k].events && ok then (Released(io, k, e), true) else (io, false)
  }

  /** triggerEvent, which panics on an event that is not registered. */
  function Triggered(io: Io, k: nat, e: Event): Io
    requires k < |io.rows|
  {
    if e in io.rows[k].events then Released(io, k, e) else io.(halted := true)
  }

  /** Trigger the events in `ready`, READ before WRITE. */
  function TriggeredAll(io: Io, k: nat, ready: set<Event>): Io
    requires k < |io.rows|
  {
    var a := if READ in ready then Triggered(io, k, READ) else io;
    if a.halted || WRITE !in ready then a else Triggered(a, k, WRITE)
  }

  function CancelledAll(io: Io, k: nat, ok: bool): (Io, bool)
    requires k < |io.rows|
  {
    if io.rows[k].events != {} && ok then (TriggeredAll(io, k, io.rows[k].events), true) else (io, false)
  }

  /** The events that idle takes epoll_wait to report: `error` stands for EPOLLERR or EPOLLHUP. */
  function Ready(c: Entry, reported: set<Event>, error: bool): set<Event> {
    reported + if error then c.events else {}
  }

  function Dispatched(io: Io, k: nat, reported: set<Event>, error: bool, ok: bool): Io
    requires k < |io.rows|
  {
    var ready := Ready(io.rows[k], reported, error);
    if io.rows[k].events * ready == {} || !ok then io else TriggeredAll(io, k, ready)
  }

  /** The scheduler takes no empty callback. */
  function CallsOf(cbs: seq<Timing.Callback>): seq<Waiter> {
    if cbs == [] then []
    else
      var front, last := CallsOf(cbs[..|cbs| - 1]), cbs[|cbs| - 1];
      match last
      case Empty => front
      case Calls(id) => front + [Call(id)]
  }

  lemma CallsNone()
    ensures CallsOf([]) == []
  {
  }

  lemma CallsMore(cbs: seq<Timing.Callback>, cb: Timing.Callback)
    ensures CallsOf(cbs + [cb]) == CallsOf(cbs) + match cb { case Empty => [] case Calls(id) => [Call(id)] }
  {
    assert (cbs + [cb])[..|cbs|] == cbs;
  }

  function Called(io: Io, cbs: seq<Timing.Callback>): Io {
    io.(tasks := io.tasks + CallsOf(cbs), called := io.called + multiset(CallsOf(cbs)))
  }

  function Begun(io: Io): Io
    requires io.tasks != []
  {
    io.(tasks := io.tasks[1..], running := io.running + multiset{io.tasks[0]})
  }

  function Finished(io: Io, w: Waiter): Io {
    io.(running := io.running - multiset{w}, done := io.done + multiset{w})
  }

  /** What stopping sees: no timer, no event pending, the scheduler stopped, nothing listed and nothing run. */
  ghost predicate Stops(io: Io, timers: bool) {
    !timers && Pending(io.rows) == 0 && io.isStopped && io.tasks == [] && |io.running| == 0
  }

  lemma ResizedLess(io: Io, size: nat)
    requires size <= |io.table|
    ensures Resized(io, size) == io.(table := io.table[..size])
  {
  }

  lemma ResizedNone(io: Io)
    ensures Resized(io, |io.table|) == io
  {
  }

  /** One more row, with a context of its own. */
  function Widened(io: Io): Io {
    io.(fds := io.fds + [|io.table|], rows := io.rows + [FREE], table := io.table + [|io.fds|])
  }

  lemma ResizedOne(io: Io, size: nat)
    requires |io.table| <= size
    ensures Resized(io, size + 1) == Widened(Resized(io, size)) && |Resized(io, size).table| == size
  {
    var n := size - |io.table|;
    assert From(|io.table|, n + 1) == From(|io.table|, n) + [size];
    assert From(|io.fds|, n + 1) == From(|io.fds|, n) + [|io.fds| + n];
    assert Grown(io.rows, |io.rows| + n + 1) == Grown(io.rows, |io.rows| + n) + [FREE];
  }

  // What every operation keeps.

  lemma ResizedGood(io: Io, size: nat)
    requires Good(io) && 32 <= size
    ensures Good(Resized(io, size)) && Pending(Resized(io, size).rows) == Pending(io.rows)
  {
    if size > |io.table| {
      GrownSame(io.rows, |io.rows| + size - |io.table|);
      FreeIsOk();
    }
  }

  lemma FreeIsOk()
    ensures SlotsOk(FREE) && FREE.events == {}
  {
  }

  lemma EnteredGood(io: Io, k: nat, e: Event, w: Waiter)
    requires Good(io) && k < |io.rows| && e !in io.rows[k].events && Takes(io, k) && w != Nobody
    ensures Good(Entered(io, k, e, w)) && Pending(Entered(io, k, e, w).rows) == Pending(io.rows) + 1
  {
    hide SlotsOk, Pending, AllWaiting, With, Booked, Balanced;
    RowEntered(io.rows, k, e, w, io.added, io.scheduled, io.dropped);
    WithIn(io.rows[k], e, w);
    WithCounts(io.rows[k], e, w);
    TableUpdate(io.rows, k, With(io.rows[k], e, w));
  }

  lemma WithIn(c: Entry, e: Event, w: Waiter)
    ensures With(c, e, w).events == c.events + {e}
  {
  }

  lemma WithoutIn(c: Entry, e: Event)
    ensures Without(c, e).events == c.events - {e}
  {
  }

  lemma DroppedGood(io: Io, k: nat, e: Event)
    requires Good(io) && k < |io.rows| && e in io.rows[k].events
    ensures Good(Dropped(io, k, e)) && Pending(Dropped(io, k, e).rows) == Pending(io.rows) - 1
  {
    hide SlotsOk, Pending, AllWaiting, Without, Booked, Balanced, Slot;
    RowLeft(io.rows, k, e, io.added, io.scheduled, io.dropped);
    WithoutIn(io.rows[k], e);
    WithoutCounts(io.rows[k], e);
    TableUpdate(io.rows, k, Without(io.rows[k], e));
  }

  lemma ReleasedGood(io: Io, k: nat, e: Event)
    requires Good(io) && k < |io.rows| && e in io.rows[k].events
    ensures Good(Released(io, k, e)) && Pending(Released(io, k, e).rows) == Pending(io.rows) - 1
  {
    hide SlotsOk, Pending, AllWaiting, Without, Booked, Balanced, Slot;
    var w := Slot(io.rows[k], e);
    RowLeft(io.rows, k, e, io.added, io.scheduled, io.dropped);
    WithoutIn(io.rows[k], e);
    WithoutCounts(io.rows[k], e);
    TableUpdate(io.rows, k, Without(io.rows[k], e));
    BookedMore(io.scheduled + io.called, io.tasks, io.running, io.done, w);
    assert (io.scheduled + multiset{w}) + io.called == (io.scheduled + io.called) + multiset{w};
  }

  lemma TriggeredAllGood(io: Io, k: nat, ready: set<Event>)
    requires Good(io) && k < |io.rows| && !io.halted
    ensures Good(TriggeredAll(io, k, ready))
  {
    hide Good, Released, Without;
    if READ in ready && READ in io.rows[k].events { ReleasedGood(io, k, READ); }
    var a := if READ in ready then Triggered(io, k, READ) else io;
    HaltedGood(io);
    if !a.halted && WRITE in ready {
      ReleasedRows(io, k, READ);
      HaltedGood(a);
      if WRITE in a.rows[k].events { ReleasedGood(a, k, WRITE); }
    }
  }

  lemma HaltedGood(io: Io)
    ensures Good(io.(halted := true)) <==> Good(io)
  {
  }

  lemma ReleasedRows(io: Io, k: nat, e: Event)
    requires k < |io.rows|
    ensures |Released(io, k, e).rows| == |io.rows|
  {
  }

  lemma CalledGood(io: Io, cbs: seq<Timing.Callback>)
    requires Good(io)
    ensures Good(Called(io, cbs))
  {
    hide SlotsOk, Pending, AllWaiting, Balanced;
    var ws := CallsOf(cbs);
    forall x ensures ((io.scheduled + (io.called + multiset(ws)))[x]
                      == (multiset(io.tasks + ws) + io.running + io.done)[x]) {
      assert multiset(io.tasks + ws) == multiset(io.tasks) + multiset(ws);
      assert (io.scheduled + io.called)[x] == (multiset(io.tasks) + io.running + io.done)[x];
    }
  }

  lemma BegunGood(io: Io)
    requires Good(io) && io.tasks != []
    ensures Good(Begun(io)) && |Begun(io).running| == |io.running| + 1
  {
    hide SlotsOk, Pending, AllWaiting, Balanced, Booked;
    BookedTaken(io.scheduled + io.called, io.tasks, io.running, io.done);
  }

  lemma FinishedGood(io: Io, w: Waiter)
    requires Good(io) && w in io.running
    ensures Good(Finished(io, w)) && |Finished(io, w).running| == |io.running| - 1
  {
    hide SlotsOk, Pending, AllWaiting, Balanced, Booked;
    BookedDone(io.scheduled + io.called, io.tasks, io.running, io.done, w);
  }

  // What the operations mean.

  /** Triggering: the process panics exactly if an event is not registered; else just the registered events in
      `ready` are gone, their waiters listed with READ first. */
  lemma TriggeredAllIs(io: Io, k: nat, ready: set<Event>)
    requires k < |io.rows| && !io.halted
    ensures var c, v := io.rows[k], TriggeredAll(io, k, ready);
            && (v.halted <==> !(ready <= c.events))
            && (!v.halted ==> v.rows == io.rows[k := Fired(c, ready)] && v.tasks == io.tasks + Waiters(c, ready))
  {
    hide Fired, Waiters, Without, Slot;
    var c := io.rows[k];
    FiredSteps(c, ready);
    WithoutIn(c, READ);
    assert io.rows[k := c] == io.rows;
  }

  /** A row with the waiter of one event set, or none. */
  function RowWith(c: Entry, e: Event, w: Waiter): Entry {
    Entry(if w == Nobody then c.events - {e} else c.events + {e}, if e == READ then w else c.read,
          if e == WRITE then w else c.write)
  }

  /** addEvent on a context panics exactly if the event is registered there. Else it succeeds exactly if epoll_ctl has
      no trouble of its own and another event is registered there, or none is on any context of the descriptor; then
      the event is registered for the waiter, and nothing else changes. */
  lemma AttachedExactly(io: Io, k: nat, e: Event, w: Waiter, ok: bool)
    requires k < |io.rows| == |io.fds| && w != Nobody
    ensures var r, c := Attached(io, k, e, w, ok), io.rows[k];
            var free := forall j :: 0 <= j < |io.fds| && io.fds[j] == io.fds[k] ==> io.rows[j].events == {};
            && (e in c.events ==> r == (io.(halted := true), -1))
            && (e !in c.events && ok && (c.events != {} || free) ==>
                  r == (io.(rows := io.rows[k := RowWith(c, e, w)], added := io.added + multiset{w}), 0))
            && (e !in c.events && !(ok && (c.events != {} || free)) ==> r == (io, -1))
  {
  }

  /** delEvent on a context. */
  lemma DeletedExactly(io: Io, k: nat, e: Event, ok: bool)
    requires k < |io.rows|
    ensures var r, c := Deleted(io, k, e, ok), io.rows[k];
            var w := if e == READ then c.read else c.write;
            r == if e in c.events && ok
                 then (io.(rows := io.rows[k := RowWith(c, e, Nobody)], dropped := io.dropped + multiset{w}), true)
                 else (io, false)
  {
  }

  /** cancelEvent on a context. */
  lemma CancelledExactly(io: Io, k: nat, e: Event, ok: bool)
    requires k < |io.rows|
    ensures var r, c := Cancelled(io, k, e, ok), io.rows[k];
            var w := if e == READ then c.read else c.write;
            r == if e in c.events && ok
                 then (io.(rows := io.rows[k := RowWith(c, e, Nobody)], tasks := io.tasks + [w],
                           scheduled := io.scheduled + multiset{w}), true)
                 else (io, false)
  {
  }

  /** The waiters of the events of a row, READ before WRITE. */
  function WaitersOf(c: Entry, events: set<Event>): seq<Waiter> {
    (if READ in events then [c.read] else []) + (if WRITE in events then [c.write] else [])
  }

  /** cancelAll on a context frees it and lists all its waiters, READ first. */
  lemma CancelledAllExactly(io: Io, k: nat, ok: bool)
    requires Good(io) && !io.halted && k < |io.rows|
    ensures var r, c := CancelledAll(io, k, ok), io.rows[k];
            if c.events != {} && ok
            then r.1 && !r.0.halted && r.0.rows == io.rows[k := FREE] && r.0.tasks == io.tasks + WaitersOf(c, c.events)
            else r == (io, false)
  {
    AllTriggered(io, k);
  }

  lemma AllTriggered(io: Io, k: nat)
    requires Good(io) && !io.halted && k < |io.rows|
    ensures var c, v := io.rows[k], TriggeredAll(io, k, io.rows[k].events);
            && !v.halted && v.rows == io.rows[k := FREE] && v.tasks == io.tasks + WaitersOf(c, c.events)
  {
    var c := io.rows[k];
    FiredAll(c);
    TriggeredAllIs(io, k, c.events);
    assert Waiters(c, c.events) == WaitersOf(c, c.events);
  }

  /** What idle does with one report. With an error or a hang-up it counts as a report of all that is registered: unless
      something is reported that is not registered, which ends the process, the context is freed, all its waiters are
      listed, and all its events counted off. */
  lemma HungUpExactly(io: Io, k: nat, reported: set<Event>, ok: bool)
    requires Good(io) && !io.halted && k < |io.rows|
    ensures var v, c := Dispatched(io, k, reported, true, ok), io.rows[k];
            && (!ok || c.events == {} ==> v == io)
            && (ok && c.events != {} ==>
                  && (v.halted <==> !(reported <= c.events))
                  && (!v.halted ==>
                        && v.rows == io.rows[k := FREE] && v.tasks == io.tasks + WaitersOf(c, c.events)
                        && Pending(v.rows) == Pending(io.rows) - |c.events|))
  {
    hide Good, TriggeredAll, Pending;
    var c := io.rows[k];
    var ready := reported + c.events;
    assert c.events * ready == c.events;
    assert ready <= c.events <==> reported <= c.events;
    TriggeredAllIs(io, k, ready);
    if reported <= c.events {
      assert ready == c.events;
      AllTriggered(io, k);
      hide Waiters, Fired;
      TableUpdate(io.rows, k, FREE);
    }
  }

  /** Without an error exactly the events reported count: if none of them is registered nothing happens; else the process
      ends if one of them is not, and if all are, just these are unregistered, their waiters listed. */
  lemma ReportExactly(io: Io, k: nat, reported: set<Event>, ok: bool)
    requires Good(io) && !io.halted && k < |io.rows|
    ensures var v, c := Dispatched(io, k, reported, false, ok), io.rows[k];
            && (!ok || c.events * reported == {} ==> v == io)
            && (ok && c.events * reported != {} ==>
                  && (v.halted <==> !(reported <= c.events))
                  && (!v.halted ==>
                        && v.rows == io.rows[k := Entry(c.events - reported, if READ in reported then Nobody else c.read,
                                                        if WRITE in reported then Nobody else c.write)]
                        && v.tasks == io.tasks + WaitersOf(c, reported)
                        && Pending(v.rows) == Pending(io.rows) - |reported|))
  {
    hide Good, TriggeredAll, Pending;
    var c := io.rows[k];
    assert reported + {} == reported;
    TriggeredAllIs(io, k, reported);
    if reported <= c.events {
      var d := Fired(c, reported);
      assert d == Entry(c.events - reported, if READ in reported then Nobody else c.read,
                        if WRITE in reported then Nobody else c.write);
      assert Waiters(c, reported) == WaitersOf(c, reported);
      assert |c.events - reported| == |c.events| - |reported|;
      TableUpdate(io.rows, k, d);
    }
  }

  /** contextResize: the table has the size asked for; rows that stay keep their contexts, every new row has a new
      context, free, of its own descriptor; and all contexts there were are as before. */
  lemma ResizedExactly(io: Io, size: nat)
    requires Laid(io)
    ensures var v := Resized(io, size); var n := |io.table|;
            && |v.table| == size && io.fds <= v.fds && io.rows <= v.rows
            && |v.fds| == |v.rows| == |io.fds| + (if size > n then size - n else 0)
            && (forall i :: 0 <= i < size && i < n ==> v.table[i] == io.table[i])
            && (forall i :: n <= i < size ==>
                  v.table[i] == |io.fds| + i - n && v.fds[v.table[i]] == i && v.rows[v.table[i]] == FREE)
            && v == io.(fds := v.fds, rows := v.rows, table := v.table)
  {
  }

  /** Callbacks go to the end of the list one after the other, the empty ones left out. */
  lemma CalledExactly(io: Io, cbs: seq<Timing.Callback>, cb: Timing.Callback)
    ensures Called(io, []).tasks == io.tasks
    ensures Called(io, cbs + [cb]).tasks
            == Called(io, cbs).tasks + if cb.Calls? then [Call(cb.id)] else []
    ensures Called(io, cbs) == io.(tasks := Called(io, cbs).tasks, called := Called(io, cbs).called)
  {
    CallsMore(cbs, cb);
  }

  /** Tasks are taken from the front of the list. */
  lemma BegunExactly(io: Io)
    requires io.tasks != []
    ensures var v := Begun(io);
            [io.tasks[0]] + v.tasks == io.tasks && v.running == io.running + multiset{io.tasks[0]}
            && v == io.(tasks := v.tasks, running := v.running)
  {
  }

  /** A registered event can be deleted or cancelled by its descriptor exactly if the table still reaches its
      context; the context that the table has there instead has nothing registered. */
  lemma ReachedExactly(io: Io, k: nat, e: Event)
    requires Good(io) && k < |io.rows| && e in io.rows[k].events
    ensures var fd := io.fds[k];
            && (fd < |io.table| && Deleted(io, io.table[fd], e, true).1 <==> fd < |io.table| && io.table[fd] == k)
            && (fd < |io.table| && Cancelled(io, io.table[fd], e, true).1 <==> fd < |io.table| && io.table[fd] == k)
            && (fd < |io.table| && CancelledAll(io, io.table[fd], true).1 <==> fd < |io.table| && io.table[fd] == k)
  {
    var fd := io.fds[k];
    if fd < |io.table| && io.table[fd] != k {
      var j := io.table[fd];
      assert io.fds[j] == fd;
      assert io.rows[j].events == {};
    }
  }

  /** As long as one context has an event registered, no other context of its descriptor gets one: epoll_ctl
      refuses to add the descriptor again. */
  lemma SecondContextFails(io: Io, k: nat, j: nat, e: Event, w: Waiter, ok: bool)
    requires Good(io) && k < |io.rows| && io.rows[k].events != {} && j < |io.rows| && j != k && io.fds[j] == io.fds[k]
    ensures Attached(io, j, e, w, ok) == (io, -1)
  {
    assert Watched(io, io.fds[j]);
  }

  /** epoll reports a registered event to its context, in the table or not: the waiter is listed once, and the
      event is no longer pending. */
  lemma ReportedExactly(io: Io, k: nat, e: Event)
    requires Good(io) && !io.halted && k < |io.rows|
    ensures var v := Dispatched(io, k, {e}, false, true);
            && !v.halted && Good(v)
            && (e in io.rows[k].events ==>
                  v == Released(io, k, e) && Pending(v.rows) == Pending(io.rows) - 1)
            && (e !in io.rows[k].events ==> v == io)
  {
    hide Good, Released;
    var c := io.rows[k];
    if e in c.events {
      assert e in c.events * {e};
      ReleasedGood(io, k, e);
    } else {
      assert c.events * {e} == {};
    }
    match e
    case READ => ReleasedHalts(io, k, READ);
    case WRITE =>  ReleasedHalts(io, k, WRITE);
  }

  lemma ReleasedHalts(io: Io, k: nat, e: Event)
    requires k < |io.rows|
    ensures Released(io, k, e).halted == io.halted
  {
  }

  type Present = w: Waiter | w != Nobody witness Fiber(0)

  /** Out of the table. */
  ghost predicate CutOff(io: Io, k: nat) {
    k < |io.fds| && k !in io.table
  }

  // Two things that can happen.

  /** From any state in which a descriptor is free: READ and WRITE are registered, WRITE is deleted, and then
      epoll_wait's report of both is dealt with. The process ends. */
  lemma DispatchPanics(io: Io, k: nat, r: Present, w: Present)
    requires !io.halted && k < |io.rows| == |io.fds| && io.rows[k] == FREE && !Watched(io, io.fds[k])
    ensures var a := Attached(io, k, READ, r, true).0;
            var b := Attached(a, k, WRITE, w, true).0;
            var c := Deleted(b, k, WRITE, true).0;
            && !c.halted && c.rows[k].events == {READ}
            && Dispatched(c, k, {READ, WRITE}, false, true).halted
  {
    var a := Attached(io, k, READ, r, true).0;
    var b := Attached(a, k, WRITE, w, true).0;
    var c := Deleted(b, k, WRITE, true).0;
    WithIn(io.rows[k], READ, r);
    WithIn(a.rows[k], WRITE, w);
    WithoutIn(b.rows[k], WRITE);
    hide With, Without, TriggeredAll, Slot, Watched;
    assert a.rows[k].events == {READ};
    assert b.rows[k].events == {READ, WRITE};
    assert c.rows[k].events == {READ};
    assert {READ} * {READ, WRITE} == {READ};
    TriggeredAllIs(c, k, {READ, WRITE});
  }

  /** addEvent for descriptor f finds it beyond the table and lets the read lock go; others register an event at
      a descriptor at least half as large again; then the first resizes. The event is out of the reach of its
      descriptor, and a second addEvent there, which makes a new context, fails. But the event is still counted,
      and when epoll reports it, its waiter is listed and it is counted off. */
  lemma LateGrow(io: Io, k: nat, e: Event, f: nat)
    requires Good(io) && !io.halted && k < |io.rows| && e in io.rows[k].events
    requires io.fds[k] < |io.table| && io.table[io.fds[k]] == k && 32 <= f && f * 3 / 2 <= io.fds[k]
    ensures var fd, v := io.fds[k], Resized(io, f * 3 / 2);
            var u := Resized(v, fd * 3 / 2);
            && Good(v) && CutOff(v, k) && |v.table| <= fd && Pending(v.rows) == Pending(io.rows)
            && Good(u) && CutOff(u, k) && fd < |u.table| && u.table[fd] < |u.rows| && k < |u.rows|
            && (forall e2: Event, w: Present, ok: bool :: Attached(u, u.table[fd], e2, w, ok) == (u, -1))
            && !Deleted(u, u.table[fd], e, true).1 && !Cancelled(u, u.table[fd], e, true).1
            && Dispatched(u, k, {e}, false, true) == Released(u, k, e)
            && Pending(Dispatched(u, k, {e}, false, true).rows) == Pending(io.rows) - 1
  {
    var fd, v := io.fds[k], Resized(io, f * 3 / 2);
    var u := Resized(v, fd * 3 / 2);
    ResizedGood(io, f * 3 / 2);
    ResizedGood(v, fd * 3 / 2);
    CutStays(io, k, f * 3 / 2, fd * 3 / 2);
    hide Resized, Attached, Deleted, Cancelled, CancelledAll, Dispatched, Released, Pending, Balanced, Booked, SlotsOk;
    ReachedExactly(u, k, e);
    ReportedExactly(u, k, e);
    forall e2: Event, w: Present, ok: bool ensures Attached(u, u.table[fd], e2, w, ok) == (u, -1) {
      SecondContextFails(u, k, u.table[fd], e2, w, ok);
    }
  }

  lemma CutStays(io: Io, k: nat, size: nat, again: nat)
    requires Good(io) && k < |io.rows| && io.fds[k] < |io.table| && io.table[io.fds[k]] == k
    requires 32 <= size <= io.fds[k] < again
    ensures var v := Resized(io, size);
            var u := Resized(v, again);
            && CutOff(v, k) && |v.table| == size && CutOff(u, k) && |u.table| == again && !u.halted == !io.halted
            && k < |u.rows| && u.rows[k] == io.rows[k] && u.fds[k] == io.fds[k]
  {
    hide Pending, Balanced, Booked, SlotsOk;
    forall i | 0 <= i < size ensures io.table[i] != k { assert io.fds[io.table[i]] == i; }
  }
}
