/**
 * The manager of src/fiber/iomanager.cpp with its contexts, its table and its counters updated in place. Every
 * method is proved to do what IoBooks says of the manager's View, and `Drive` follows the histories of IoHistory.
 */
module IoEvents {
  import Timing = TimerManagement
  import opened IoTable
  import opened IoBooks
  import opened IoHistory

  class FdContext {
    const fd: nat
    var events: set<Event>
    var read: Waiter
    var write: Waiter

    constructor (fd: nat)
      ensures this.fd == fd && View() == FREE
    {
      this.fd := fd;
      events, read, write := {}, Nobody, Nobody;
    }

    ghost function View(): Entry
      reads this
    {
      Entry(events, read, write)
    }

    method Set(e: Event, w: Waiter)
      modifies this
      ensures View() == With(old(View()), e, w)
    {
      events := events + {e};
      match e
      case READ => read := w;
      case WRITE => write := w;
    }

    /** Unregister the event and reset its context. */
    method Clear(e: Event) returns (w: Waiter)
      modifies this
      ensures w == Slot(old(View()), e) && View() == Without(old(View()), e)
    {
      events := events - {e};
      match e
      case READ => w, read := read, Nobody;
      case WRITE => w, write := write, Nobody;
    }
  }

  ghost function TableOf(ctxs: seq<FdContext>): (t: Table)
    reads ctxs
    ensures |t| == |ctxs| && forall i :: 0 <= i < |ctxs| ==> t[i] == ctxs[i].View()
  {
    if ctxs == [] then [] else TableOf(ctxs[..|ctxs| - 1]) + [ctxs[|ctxs| - 1].View()]
  }

  ghost function FdsOf(ctxs: seq<FdContext>): (fds: seq<nat>)
    ensures |fds| == |ctxs| && forall i :: 0 <= i < |ctxs| ==> fds[i] == ctxs[i].fd
  {
    if ctxs == [] then [] else FdsOf(ctxs[..|ctxs| - 1]) + [ctxs[|ctxs| - 1].fd]
  }

  ghost predicate Distinct(ctxs: seq<FdContext>) {
    forall i, j :: 0 <= i < j < |ctxs| ==> ctxs[i] != ctxs[j]
  }

  /** epoll holds a descriptor exactly while one of its contexts has events registered, and points to it. */
  ghost predicate Told(epoll: map<nat, FdContext>, ctxs: seq<FdContext>, t: Table) {
    && |t| == |ctxs|
    && (forall fd :: fd in epoll ==> epoll[fd] in ctxs && epoll[fd].fd == fd)
    && (forall k :: 0 <= k < |ctxs| ==>
          (t[k].events != {} <==> ctxs[k].fd in epoll && epoll[ctxs[k].fd] == ctxs[k]))
  }

  lemma ToldEntered(epoll: map<nat, FdContext>, ctxs: seq<FdContext>, t: Table, k: nat, c: Entry)
    requires Told(epoll, ctxs, t) && Distinct(ctxs) && k < |ctxs| && c.events != {}
    requires t[k].events != {} || ctxs[k].fd !in epoll
    ensures Told(epoll[ctxs[k].fd := ctxs[k]], ctxs, t[k := c])
  {
  }

  lemma ToldLeft(epoll: map<nat, FdContext>, ctxs: seq<FdContext>, t: Table, k: nat, c: Entry)
    requires Told(epoll, ctxs, t) && Distinct(ctxs) && k < |ctxs| && t[k].events != {}
    ensures Told(if c.events == {} then epoll - {ctxs[k].fd} else epoll, ctxs, t[k := c])
  {
  }

  lemma ToldMore(epoll: map<nat, FdContext>, ctxs: seq<FdContext>, t: Table, ctx: FdContext)
    requires Told(epoll, ctxs, t) && ctx !in ctxs
    ensures Told(epoll, ctxs + [ctx], t + [FREE])
  {
    var more := ctxs + [ctx];
    forall k | 0 <= k < |more|
      ensures (t + [FREE])[k].events != {} <==> more[k].fd in epoll && epoll[more[k].fd] == more[k]
    {
    }
  }

  lemma ToldWatches(epoll: map<nat, FdContext>, ctxs: seq<FdContext>, io: Io, k: nat)
    requires Told(epoll, ctxs, io.rows) && k < |ctxs| && io.fds == FdsOf(ctxs)
    ensures Takes(io, k) <==> io.rows[k].events != {} || ctxs[k].fd !in epoll
  {
    hide FdsOf;
    var fd := ctxs[k].fd;
    if fd in epoll {
      var j :| 0 <= j < |ctxs| && ctxs[j] == epoll[fd];
      assert io.fds[j] == fd && io.rows[j].events != {};
    }
    if Watched(io, fd) {
      var j :| 0 <= j < |io.fds| && j < |io.rows| && io.fds[j] == fd && io.rows[j].events != {};
      assert ctxs[j].fd in epoll;
    }
  }

  lemma TablesMore(ctxs: seq<FdContext>, ctx: FdContext)
    ensures TableOf(ctxs + [ctx]) == TableOf(ctxs) + [ctx.View()] && FdsOf(ctxs + [ctx]) == FdsOf(ctxs) + [ctx.fd]
  {
    assert (ctxs + [ctx])[..|ctxs|] == ctxs;
  }

  /** Row i of the table points to context place[i]. */
  ghost predicate Points(rows: seq<FdContext>, place: seq<nat>, ctxs: seq<FdContext>) {
    |rows| == |place| && forall i :: 0 <= i < |rows| ==> place[i] < |ctxs| && rows[i] == ctxs[place[i]]
  }

  lemma PointsSize(rows: seq<FdContext>, place: seq<nat>, ctxs: seq<FdContext>)
    requires Points(rows, place, ctxs)
    ensures |rows| == |place|
  {
  }

  lemma NoContexts()
    ensures Distinct([]) && Points([], [], []) && Told(map[], [], []) && FdsOf([]) == [] && TableOf([]) == []
  {
  }

  class IOManager {
    var fdContexts: seq<FdContext>     // the rows of the table
    var epoll: map<nat, FdContext>     // what epoll holds, and the context that it reports
    var pendingEventCnt: int
    var tasks: seq<Waiter>             // tasks_ of the scheduler
    var activeThreadCnt: int
    var running: multiset<Waiter>      // the tasks that threads of the scheduler are in
    var isStopped: bool
    var halted: bool                   // CondPanic
    const timers: Timing.TimerManager
    var all: seq<FdContext>            // every context ever made, which whoever fetched it may still use
    ghost var place: seq<nat>          // where in `all` the rows of the table are
    ghost var added: multiset<Waiter>
    ghost var scheduled: multiset<Waiter>
    ghost var called: multiset<Waiter>
    ghost var dropped: multiset<Waiter>
    ghost var done: multiset<Waiter>

    ghost function View(): Io
      reads this, all
    {
      Io(FdsOf(all), TableOf(all), place, tasks, running, isStopped, halted, added, scheduled, called, dropped, done)
    }

    /** The counter counts the registered events of all contexts, in the table or not, and the books are good. */
    ghost predicate Valid()
      reads this, all
    {
      && Distinct(all) && Points(fdContexts, place, all) && Told(epoll, all, TableOf(all))
      && Good(View())
      && pendingEventCnt == Pending(TableOf(all)) && activeThreadCnt == |running|
    }

    /** What can be read off the fields. */
    lemma Sees()
      ensures var v := View();
              && |v.rows| == |v.fds| == |all| && v.tasks == tasks && v.running == running
              && v.halted == halted && v.isStopped == isStopped && v.table == place
    {
    }

    lemma IsBlank()
      requires fdContexts == [] && epoll == map[] && all == [] && place == [] && tasks == [] && !isStopped && !halted
      requires added == scheduled == called == dropped == running == done == multiset{}
      ensures View() == Blank() && |running| == 0
      ensures Distinct(all) && Points(fdContexts, place, all) && Told(epoll, all, TableOf(all))
    {
      NoContexts();
    }

    constructor (now: nat)
      ensures Valid() && View() == Start(now).io && fresh(all)
      ensures fresh(timers) && timers.Valid() && timers.timers == [] && timers.made == {} && timers.blank == {}
      ensures timers.clock == now && !timers.tickled && timers.wakeUps == 0
    {
      hide Good, Pending, Told, TableOf, FdsOf, Points, Distinct, Start, Blank, View, Valid;
      hide Timing.TimerManager.Valid, Timing.TimerManager.Awake;
      fdContexts, epoll, pendingEventCnt, tasks, activeThreadCnt, isStopped, halted := [], map[], 0, [], 0, false, false;
      all, place := [], [];
      added, scheduled, called, dropped, running, done :=
        multiset{}, multiset{}, multiset{}, multiset{}, multiset{}, multiset{};
      timers := new Timing.TimerManager(now);
      new;
      IsBlank();
      Init(now);
    }

    /** The end of the constructor. */
    method Init(ghost now: nat)
      requires View() == Blank() && pendingEventCnt == 0 && activeThreadCnt == |running|
      requires Distinct(all) && Points(fdContexts, place, all) && Told(epoll, all, TableOf(all)) && all == []
      modifies this`fdContexts, this`all, this`place
      ensures Valid() && View() == Start(now).io && fresh(all)
    {
      hide Good, Pending, Told, TableOf, FdsOf, Points, Distinct, Start, Blank, Resized;
      StartGood(now);
      ContextResize(32);
    }

    method ContextResize(size: nat)
      requires Distinct(all) && Points(fdContexts, place, all) && Told(epoll, all, TableOf(all))
      modifies this`fdContexts, this`all, this`place
      ensures Distinct(all) && Points(fdContexts, place, all) && Told(epoll, all, TableOf(all))
      ensures old(all) <= all && forall k :: |old(all)| <= k < |all| ==> fresh(all[k])
      ensures View() == Resized(old(View()), size) && |fdContexts| == size
    {
      hide Told, Distinct, TableOf, FdsOf, Resized;
      if size <= |fdContexts| {
        ResizedLess(View(), size);
        fdContexts, place := fdContexts[..size], place[..size];
      } else {
        Extend(size);
      }
    }

    /** The loop of contextResize. */
    method Extend(size: nat)
      requires Distinct(all) && Points(fdContexts, place, all) && Told(epoll, all, TableOf(all)) && |fdContexts| <= size
      modifies this`fdContexts, this`all, this`place
      ensures Distinct(all) && Points(fdContexts, place, all) && Told(epoll, all, TableOf(all))
      ensures old(all) <= all && forall k :: |old(all)| <= k < |all| ==> fresh(all[k])
      ensures View() == Resized(old(View()), size) && |fdContexts| == size
    {
      hide Told, Distinct, TableOf, FdsOf, Points, Resized, Widened;
      ghost var v, was := View(), all;
      PointsSize(fdContexts, place, all);
      ResizedNone(v);
      while |fdContexts| < size
        invariant |v.table| <= |fdContexts| <= size
        invariant Distinct(all) && Points(fdContexts, place, all) && Told(epoll, all, TableOf(all))
        invariant was <= all && forall k :: |was| <= k < |all| ==> fresh(all[k])
        invariant View() == Resized(v, |fdContexts|)
        decreases size - |fdContexts|
      {
        ResizedOne(v, |fdContexts|);
        MakeContext();
      }
    }

    /** One more row, with a context of its own. */
    method MakeContext()
      requires Distinct(all) && Points(fdContexts, place, all) && Told(epoll, all, TableOf(all))
      modifies this`fdContexts, this`all, this`place
      ensures Distinct(all) && Points(fdContexts, place, all) && Told(epoll, all, TableOf(all))
      ensures |fdContexts| == |old(fdContexts)| + 1 && |all| == |old(all)| + 1 && old(all) <= all && fresh(all[|all| - 1])
      ensures View() == Widened(old(View()))
    {
      hide Told, TableOf, FdsOf;
      var ctx := new FdContext(|fdContexts|);
      TablesMore(all, ctx);
      ToldMore(epoll, all, TableOf(all), ctx);
      place := place + [|all|];
      all := all + [ctx];
      fdContexts := fdContexts + [ctx];
    }

    /** addEvent's part under the write lock, for a descriptor that was beyond the table when the read lock was
        let go: one and a half times as many rows. If other threads made the table larger in between, it shrinks;
        contexts cut off keep their events, which stay counted and known to epoll. */
    method Grow(fd: nat)
      requires Valid() && 32 <= fd
      modifies this`fdContexts, this`all, this`place
      ensures Valid() && View() == Resized(old(View()), fd * 3 / 2) && fd < |fdContexts|
      ensures old(all) <= all && forall k :: |old(all)| <= k < |all| ==> fresh(all[k])
    {
      hide Good, Pending, Told, TableOf, FdsOf, Points, Distinct;
      ResizedGood(View(), fd * 3 / 2);
      ContextResize(fd * 3 / 2);
    }

    /** Registration of one event in its context, and in epoll. */
    method Enter(ctx: FdContext, ghost k: nat, e: Event, w: Waiter)
      requires Distinct(all) && Told(epoll, all, TableOf(all)) && k < |all| && all[k] == ctx
      requires ctx.events != {} || ctx.fd !in epoll
      modifies this`pendingEventCnt, this`epoll, ctx
      ensures Told(epoll, all, TableOf(all)) && TableOf(all) == old(TableOf(all))[k := With(old(TableOf(all))[k], e, w)]
      ensures pendingEventCnt == old(pendingEventCnt) + 1
    {
      hide Slot, Without, Told, TableOf;
      ghost var t := TableOf(all);
      WithIn(t[k], e, w);
      ToldEntered(epoll, all, t, k, With(t[k], e, w));
      hide With;
      pendingEventCnt := pendingEventCnt + 1;
      ctx.Set(e, w);
      epoll := epoll[ctx.fd := ctx];
      assert TableOf(all) == t[k := With(t[k], e, w)];
    }

    /** The end of a registration; with the last event the descriptor leaves epoll. */
    method Leave(ctx: FdContext, ghost k: nat, e: Event) returns (w: Waiter)
      requires Distinct(all) && Told(epoll, all, TableOf(all)) && k < |all| && all[k] == ctx && e in ctx.events
      modifies this`pendingEventCnt, this`epoll, ctx
      ensures Told(epoll, all, TableOf(all)) && TableOf(all) == old(TableOf(all))[k := Without(old(TableOf(all))[k], e)]
      ensures w == Slot(old(TableOf(all))[k], e) && pendingEventCnt == old(pendingEventCnt) - 1
    {
      hide With, Told, TableOf;
      ghost var t := TableOf(all);
      WithoutIn(t[k], e);
      ToldLeft(epoll, all, t, k, Without(t[k], e));
      hide Slot, Without;
      pendingEventCnt := pendingEventCnt - 1;
      w := ctx.Clear(e);
      if ctx.events == {} { epoll := epoll - {ctx.fd}; }
      assert TableOf(all) == t[k := Without(t[k], e)];
    }

    lemma EpollWatches(k: nat)
      requires Valid() && k < |all|
      ensures Takes(View(), k) <==> all[k].events != {} || all[k].fd !in epoll
    {
      hide TableOf, FdsOf, Takes, Told, TableOf, FdsOf, Points, Distinct;
      ToldWatches(epoll, all, View(), k);
    }

    lemma At(k: nat)
      requires k < |all|
      ensures View().rows[k].events == all[k].events && |View().rows| == |View().fds| == |all|
    {
    }

    /** The tail of addEvent. */
    method Admit(ctx: FdContext, ghost k: nat, e: Event, w: Present)
      requires Valid() && k < |all| && all[k] == ctx && e !in ctx.events && (ctx.events != {} || ctx.fd !in epoll)
      modifies this`pendingEventCnt, this`epoll, this`added, ctx
      ensures Valid() && View() == Entered(old(View()), k, e, w)
    {
      hide Good, Pending, With, Without, Told, Slot, Takes, TableOf, FdsOf, Points, Distinct;
      At(k);
      EpollWatches(k);
      EnteredGood(View(), k, e, w);
      Enter(ctx, k, e, w);
      added := added + multiset{w};
    }

    /** addEvent from where it has its context, whatever happened to the table since. */
    method Attach(ctx: FdContext, ghost k: nat, e: Event, w: Present, ok: bool) returns (ret: int)
      requires Valid() && !halted && k < |all| && all[k] == ctx
      modifies this`pendingEventCnt, this`epoll, this`added, this`halted, ctx
      ensures Valid() && (View(), ret) == Attached(old(View()), k, e, w, ok)
    {
      hide Good, Pending, Takes, Entered, Told, TableOf, FdsOf, Points, Distinct;
      At(k);
      EpollWatches(k);
      HaltedGood(View());
      if e in ctx.events {
        halted := true;
        return -1;
      }
      // EPOLL_CTL_MOD of what epoll has, or EPOLL_CTL_ADD of what it does not have
      if !ok || (ctx.events == {} && ctx.fd in epoll) {
        return -1;
      }
      Admit(ctx, k, e, w);
      ret := 0;
    }

    /** The tail of delEvent. */
    method Drop(ctx: FdContext, ghost k: nat, e: Event)
      requires Valid() && k < |all| && all[k] == ctx && e in ctx.events
      modifies this`pendingEventCnt, this`epoll, this`dropped, ctx
      ensures Valid() && View() == Dropped(old(View()), k, e)
    {
      hide Good, Pending, With, Without, Told, Slot, TableOf, FdsOf, Points, Distinct;
      At(k);
      DroppedGood(View(), k, e);
      var w := Leave(ctx, k, e);
      dropped := dropped + multiset{w};
    }

    method DeleteFrom(ctx: FdContext, ghost k: nat, e: Event, ok: bool) returns (deleted: bool)
      requires Valid() && k < |all| && all[k] == ctx
      modifies this`pendingEventCnt, this`epoll, this`dropped, ctx
      ensures Valid() && (View(), deleted) == Deleted(old(View()), k, e, ok)
    {
      hide Good, Pending, Dropped, Told, TableOf, FdsOf, Points, Distinct;
      At(k);
      if e !in ctx.events || !ok {
        return false;
      }
      Drop(ctx, k, e);
      deleted := true;
    }

    /** triggerEvent of a registered event, and the decrement that follows it everywhere. */
    method Release(ctx: FdContext, ghost k: nat, e: Event)
      requires Valid() && k < |all| && all[k] == ctx && e in ctx.events
      modifies this`pendingEventCnt, this`epoll, this`scheduled, this`tasks, ctx
      ensures Valid() && View() == Released(old(View()), k, e)
    {
      hide Good, Pending, With, Without, Told, TableOf, FdsOf, Points, Distinct, Slot;
      At(k);
      ReleasedGood(View(), k, e);
      var w := Leave(ctx, k, e);
      tasks := tasks + [w];
      scheduled := scheduled + multiset{w};
    }

    method Fire(ctx: FdContext, ghost k: nat, e: Event)
      requires Valid() && k < |all| && all[k] == ctx && !halted
      modifies this`pendingEventCnt, this`epoll, this`scheduled, this`tasks, this`halted, ctx
      ensures Valid() && View() == Triggered(old(View()), k, e)
    {
      hide Good, Pending, Released, Told, TableOf, FdsOf, Points, Distinct;
      At(k);
      HaltedGood(View());
      if e !in ctx.events {
        halted := true;
        return;
      }
      Release(ctx, k, e);
    }

    method CancelFrom(ctx: FdContext, ghost k: nat, e: Event, ok: bool) returns (cancelled: bool)
      requires Valid() && !halted && k < |all| && all[k] == ctx
      modifies this`pendingEventCnt, this`epoll, this`scheduled, this`tasks, this`halted, ctx
      ensures Valid() && !halted && (View(), cancelled) == Cancelled(old(View()), k, e, ok)
    {
      hide Good, Pending, Told, TableOf, FdsOf, Points, Distinct;
      At(k);
      if e !in ctx.events || !ok {
        return false;
      }
      ReleasedHalts(View(), k, e);
      hide Released;
      Fire(ctx, k, e);
      cancelled := true;
    }

    /** Trigger the events in `ready`, READ before WRITE. */
    method FireAll(ctx: FdContext, ghost k: nat, ready: set<Event>)
      requires Valid() && k < |all| && all[k] == ctx && !halted
      modifies this`pendingEventCnt, this`epoll, this`scheduled, this`tasks, this`halted, ctx
      ensures Valid() && View() == TriggeredAll(old(View()), k, ready)
    {
      hide Good, Pending, Triggered, Told, TableOf, FdsOf, Points, Distinct;
      At(k);
      if READ in ready {
        Fire(ctx, k, READ);
        if halted { return; }
      }
      if WRITE in ready {
        Fire(ctx, k, WRITE);
      }
    }

    method CancelAllFrom(ctx: FdContext, ghost k: nat, ok: bool) returns (cancelled: bool)
      requires Valid() && !halted && k < |all| && all[k] == ctx
      modifies this`pendingEventCnt, this`epoll, this`scheduled, this`tasks, this`halted, ctx
      ensures Valid() && !halted && (View(), cancelled) == CancelledAll(old(View()), k, ok)
      ensures cancelled ==> ctx.View() == FREE
    {
      hide Good, Pending, TriggeredAll, Fired, Waiters, Told, TableOf, FdsOf, Points, Distinct;
      At(k);
      if ctx.events == {} || !ok {
        return false;
      }
      RowOk(k);
      TriggeredAllIs(View(), k, ctx.events);
      FiredAll(ctx.View());
      FireAll(ctx, k, ctx.events);
      assert TableOf(all)[k] == FREE;
      assert ctx.events == {};   // the panic "fd not totally clear" never comes
      cancelled := true;
    }

    lemma RowOk(k: nat)
      requires Valid() && k < |all|
      ensures SlotsOk(all[k].View())
    {
      assert TableOf(all)[k] == all[k].View();
    }

    /** What idle does with one event that epoll_wait reported; it comes with its context. */
    method Dispatch(ctx: FdContext, ghost k: nat, reported: set<Event>, error: bool, ok: bool)
      requires Valid() && k < |all| && all[k] == ctx && !halted
      modifies this`pendingEventCnt, this`epoll, this`scheduled, this`tasks, this`halted, ctx
      ensures Valid() && View() == Dispatched(old(View()), k, reported, error, ok)
    {
      hide Good, Pending, TriggeredAll, Told, TableOf, FdsOf, Points, Distinct;
      At(k);
      var ready := reported + if error then ctx.events else {};
      if ctx.events * ready == {} || !ok {
        return;
      }
      FireAll(ctx, k, ready);
    }

    // By descriptor, with no other thread between the look-up and the rest.

    /** The context of a descriptor as the table has it; beyond the table there is none. */
    ghost predicate Has(fd: nat)
      reads this
    {
      fd < |place|
    }

    method AddEvent(fd: nat, e: Event, w: Present, ok: bool) returns (ret: int)
      requires Valid() && !halted
      modifies this`fdContexts, this`all, this`place, this`pendingEventCnt, this`epoll, this`added, this`halted, all
      ensures Valid() && old(all) <= all && forall k :: |old(all)| <= k < |all| ==> fresh(all[k])
      ensures var v := if old(Has(fd)) then old(View()) else Resized(old(View()), fd * 3 / 2);
              fd < |v.table| && (View(), ret) == Attached(v, v.table[fd], e, w, ok)
    {
      hide Good, Pending, Attached, Resized, Told, TableOf, FdsOf, Distinct;
      TableLong();
      if |fdContexts| <= fd {
        Grow(fd);
      }
      ret := Attach(fdContexts[fd], place[fd], e, w, ok);
    }

    lemma TableLong()
      requires Valid()
      ensures 32 <= |place| == |fdContexts|
    {
    }

    method DelEvent(fd: nat, e: Event, ok: bool) returns (deleted: bool)
      requires Valid()
      modifies this`pendingEventCnt, this`epoll, this`dropped, all
      ensures Valid()
      ensures (View(), deleted) == if old(Has(fd)) then Deleted(old(View()), old(place[fd]), e, ok) else (old(View()), false)
    {
      hide Good, Pending, Deleted, Told, TableOf, FdsOf, Distinct;
      if |fdContexts| <= fd {
        return false;
      }
      deleted := DeleteFrom(fdContexts[fd], place[fd], e, ok);
    }

    method CancelEvent(fd: nat, e: Event, ok: bool) returns (cancelled: bool)
      requires Valid() && !halted
      modifies this`pendingEventCnt, this`epoll, this`scheduled, this`tasks, this`halted, all
      ensures Valid() && !halted
      ensures (View(), cancelled) == if old(Has(fd)) then Cancelled(old(View()), old(place[fd]), e, ok) else (old(View()), false)
    {
      hide Good, Pending, Cancelled, Told, TableOf, FdsOf, Distinct;
      if |fdContexts| <= fd {
        return false;
      }
      cancelled := CancelFrom(fdContexts[fd], place[fd], e, ok);
    }

    method CancelAll(fd: nat, ok: bool) returns (cancelled: bool)
      requires Valid() && !halted
      modifies this`pendingEventCnt, this`epoll, this`scheduled, this`tasks, this`halted, all
      ensures Valid() && !halted
      ensures (View(), cancelled) == if old(Has(fd)) then CancelledAll(old(View()), old(place[fd]), ok) else (old(View()), false)
    {
      hide Good, Pending, CancelledAll, Told, TableOf, FdsOf, Distinct;
      if |fdContexts| <= fd {
        return false;
      }
      cancelled := CancelAllFrom(fdContexts[fd], place[fd], ok);
    }

    // The scheduler's part.

    method TakeTask() returns (w: Waiter)
      requires Valid() && tasks != []
      modifies this`tasks, this`activeThreadCnt, this`running
      ensures Valid() && w == old(tasks)[0] && View() == Begun(old(View()))
    {
      hide Good, Pending, Told, TableOf, FdsOf, Points, Distinct;
      BegunGood(View());
      w, tasks, activeThreadCnt := tasks[0], tasks[1..], activeThreadCnt + 1;
      running := running + multiset{w};
    }

    method FinishTask(w: Waiter)
      requires Valid() && w in running
      modifies this`activeThreadCnt, this`running, this`done
      ensures Valid() && View() == Finished(old(View()), w)
    {
      hide Good, Pending, Told, TableOf, FdsOf, Points, Distinct;
      FinishedGood(View(), w);
      activeThreadCnt := activeThreadCnt - 1;
      running, done := running - multiset{w}, done + multiset{w};
    }

    /** A thread comes back from a task; nothing happens for what none runs. */
    method FinishIfRun(w: Waiter)
      requires Valid()
      modifies this`activeThreadCnt, this`running, this`done
      ensures Valid() && View() == if w in old(running) then Finished(old(View()), w) else old(View())
    {
      hide Valid, Finished;
      if w in running { FinishTask(w); }
    }

    /** scheduler, for a callback of a timer: an empty one is not listed. */
    method Schedule(cb: Timing.Callback)
      modifies this`tasks
      ensures tasks == old(tasks) + match cb { case Empty => [] case Calls(id) => [Call(id)] }
    {
      match cb
      case Empty =>
      case Calls(id) => tasks := tasks + [Call(id)];
    }

    /** idle hands the callbacks of the timers that are due to the scheduler. */
    method ScheduleAll(cbs: seq<Timing.Callback>)
      requires Valid()
      modifies this`tasks, this`called
      ensures Valid() && View() == Called(old(View()), cbs)
    {
      hide Good, Pending, Told, TableOf, FdsOf, Points, Distinct, CallsOf;
      ghost var v := View();
      CalledGood(v, cbs);
      CallsNone();
      assert cbs[..0] == [];
      var i := 0;
      while i < |cbs|
        invariant i <= |cbs| && tasks == v.tasks + CallsOf(cbs[..i]) && called == v.called
        invariant View() == v.(tasks := tasks)
      {
        CallsMore(cbs[..i], cbs[i]);
        Schedule(cbs[i]);
        i := i + 1;
        assert cbs[..i] == cbs[..i - 1] + [cbs[i - 1]];
      }
      assert cbs[..i] == cbs;
      called := called + multiset(CallsOf(cbs));
    }

    method Stop()
      requires Valid()
      modifies this`isStopped
      ensures Valid() && View() == old(View()).(isStopped := true)
    {
      hide Good, Pending, Told, TableOf, FdsOf, Points, Distinct;
      ShutGood(View());
      isStopped := true;
    }

    /** stopping, which also tells idle how long to sleep. */
    method Stopping(now: nat) returns (stop: bool, sleep: Timing.Deadline)
      requires Valid() && timers.Valid() && timers.clock <= now
      modifies timers`tickled, timers`clock, timers`polled, timers`wakeUpsThen
      ensures Valid() && View() == old(View()) && timers.Valid() && timers.Awake()
      ensures timers.clock == now && !timers.tickled
      ensures stop <==> Stops(View(), timers.timers != [])
      ensures sleep == if timers.timers == [] then Timing.Never
                       else Timing.At(if now < timers.timers[0].next then timers.timers[0].next - now else 0)
    {
      hide Good, Pending, Told, TableOf, FdsOf, Points, Distinct, Timing.TimerManager.Valid, Timing.TimerManager.Awake;
      sleep := timers.GetNextTimer(now);
      stop := sleep == Timing.Never && pendingEventCnt == 0 && isStopped && tasks == [] && activeThreadCnt == 0;
    }
  }

  // Whole histories.

  /** An action on one context. */
  method OnOne(m: IOManager, a: Action) returns (out: Out)
    requires m.Valid() && !m.halted
    modifies m, m.all
    ensures m.Valid() && (m.View(), out) == OnContext(old(m.View()), a) && m.all == old(m.all)
  {
    hide IOManager.Valid, IOManager.View, Attached, Deleted, Cancelled, CancelledAll, Dispatched;
    m.Sees();
    out := Nothing;
    match a
    case Attach(k, e, w, ok) => if k < |m.all| { var r := m.Attach(m.all[k], k, e, w, ok); out := Code(r); }
    case Delete(k, e, ok) => if k < |m.all| { var r := m.DeleteFrom(m.all[k], k, e, ok); out := Answer(r); }
    case Cancel(k, e, ok) => if k < |m.all| { var r := m.CancelFrom(m.all[k], k, e, ok); out := Answer(r); }
    case CancelAll(k, ok) => if k < |m.all| { var r := m.CancelAllFrom(m.all[k], k, ok); out := Answer(r); }
    case Dispatch(k, reported, error, ok) => if k < |m.all| { m.Dispatch(m.all[k], k, reported, error, ok); }
    case _ =>
  }

  lemma AllRows(ctxs: seq<FdContext>)
    ensures |TableOf(ctxs)| == |FdsOf(ctxs)| == |ctxs|
  {
  }

  /** The manager, its timers and the books say the same. */
  ghost predicate Mirrors(m: IOManager, handles: seq<Timing.Timer>, x: World)
    reads m, m.all, m.timers, m.timers.made, m.timers.blank, m.timers.timers, handles
  {
    && m.Valid() && m.View() == x.io && |x.io.fds| == |x.io.rows|
    && m.timers.Valid() && Timing.Holds(m.timers, handles, x.book) && m.timers.clock <= x.now
  }

  /** What happens to the timers; what is due goes to the scheduler. */
  method OnTimers(m: IOManager, handles: seq<Timing.Timer>, ghost x: World, now: nat, wait: nat, a: Timing.Action)
    returns (out: Out, more: seq<Timing.Timer>, ghost y: World)
    requires Mirrors(m, handles, x) && x.now + wait == now
    modifies m, m.timers, handles
    ensures Steps(x, Timers(wait, a), out, y) && Mirrors(m, more, y) && y.now == now && m.all == old(m.all)
    ensures forall k :: 0 <= k < |more| ==> more[k] in handles || fresh(more[k])
  {
    hide IOManager.Valid, IOManager.View, Timing.TimerManager.Valid, Timing.Act, Timing.Holds, Called, Timing.IsDue, Timing.CallsIn;
    out, more := Nothing, handles;
    if a.Expire? {
      var cbs, order := Timing.PerformExpire(m.timers, handles, x.book, now);
      m.ScheduleAll(cbs);
      out := Ran(cbs);
      y := World(Called(x.io, cbs), Timing.Act(x.book, a, now), now);
      assert AreDue(x.book, now, cbs);
      CalledSizes(x.io, cbs);
    } else if a.Poll? {
      var _ := Timing.PerformPoll(m.timers, handles, x.book, now, Timing.Never, 0);
      y := World(x.io, Timing.Act(x.book, a, now), now);
    } else {
      more := Timing.Perform(m.timers, handles, x.book, a, now);
      y := World(x.io, Timing.Act(x.book, a, now), now);
    }
  }

  /** stopping, beside the books. */
  method AskStopping(m: IOManager, handles: seq<Timing.Timer>, ghost x: World, now: nat, wait: nat)
    returns (out: Out, ghost y: World)
    requires Mirrors(m, handles, x) && x.now + wait == now
    modifies m.timers
    ensures Steps(x, Ask(wait), out, y) && Mirrors(m, handles, y) && y.now == now
  {
    hide IOManager.Valid, Timing.Kept, Timing.Registered, Timing.Paced, Timing.LeastOf, Timing.Ordered, Stops;
    Timing.EarliestIsLeastOf(m.timers.timers, handles, x.book.plans);
    Timing.PollOnly(x.book, now);
    hide Timing.Act;
    var stop, _ := m.Stopping(now);
    out := Answer(stop);
    y := World(x.io, Timing.Act(x.book, Timing.Poll, now), now);
  }

  /** What the scheduler does, and the growth of the table. */
  method OnManager(m: IOManager, a: Action) returns (out: Out)
    requires m.Valid() && !m.halted && !a.Ask? && !a.Timers?
    modifies m, m.all
    ensures m.Valid() && ManagerSteps(old(m.View()), a, out, m.View())
    ensures old(m.all) <= m.all && forall k :: |old(m.all)| <= k < |m.all| ==> fresh(m.all[k])
  {
    hide IOManager.Valid, IOManager.View, Resized, Begun, Finished, OnContext;
    m.Sees();
    if a.Grow? {
      if 32 <= a.fd { m.Grow(a.fd); }
      out := Nothing;
    } else if a.Begin? {
      out := Nothing;
      if m.tasks != [] { var w := m.TakeTask(); out := Took(w); }
    } else if a.Finish? {
      m.FinishIfRun(a.task);
      out := Nothing;
    } else if a.Shut? {
      m.Stop();
      out := Nothing;
    } else {
      out := OnOne(m, a);
    }
    m.Sees();
  }

  method OnRest(m: IOManager, handles: seq<Timing.Timer>, ghost x: World, a: Action) returns (out: Out, ghost y: World)
    requires Mirrors(m, handles, x) && !m.halted && !a.Ask? && !a.Timers?
    modifies m, m.all
    ensures Steps(x, a, out, y) && Mirrors(m, handles, y) && y.now == x.now
    ensures old(m.all) <= m.all && forall k :: |old(m.all)| <= k < |m.all| ==> fresh(m.all[k])
  {
    hide IOManager.Valid, IOManager.View, Timing.TimerManager.Valid, Timing.Holds, ManagerSteps;
    out := OnManager(m, a);
    y := World(m.View(), x.book, x.now);
    ManagerStepsAre(x, a, out, y);
  }

  method Step(m: IOManager, handles: seq<Timing.Timer>, ghost x: World, now: nat, a: Action)
    returns (out: Out, more: seq<Timing.Timer>, later: nat, ghost y: World)
    requires Mirrors(m, handles, x) && !m.halted && x.now == now
    modifies m, m.all, m.timers, handles
    ensures Steps(x, a, out, y) && Mirrors(m, more, y) && y.now == later
    ensures forall k :: 0 <= k < |more| ==> more[k] in handles || fresh(more[k])
    ensures old(m.all) <= m.all && forall k :: |old(m.all)| <= k < |m.all| ==> fresh(m.all[k])
  {
    hide Mirrors, Steps;
    more, later := handles, now;
    match a
    case Ask(wait) =>
      later := now + wait;
      out, y := AskStopping(m, handles, x, later, wait);
    case Timers(wait, b) =>
      later := now + wait;
      out, more, y := OnTimers(m, handles, x, later, wait, b);
    case _ =>
      out, y := OnRest(m, handles, x, a);
  }

  lemma MirrorsHalt(m: IOManager, handles: seq<Timing.Timer>, x: World)
    requires Mirrors(m, handles, x)
    ensures m.halted == x.io.halted
  {
  }

  method NewManager(start: nat) returns (m: IOManager)
    ensures fresh(m) && fresh(m.all) && fresh(m.timers) && Mirrors(m, [], Start(start)) && Start(start).now == start
  {
    hide IOManager.Valid, Timing.TimerManager.Valid, Timing.Holds;
    m := new IOManager(start);
    Timing.HoldsNothing(m.timers, Start(start).book);
    AllRows(m.all);
  }

  /** Through any actions of any threads in any order, the manager and its timers are what the books say, and every
      answer is theirs. */
  method Drive(start: nat, acts: seq<Action>)
    returns (m: IOManager, handles: seq<Timing.Timer>, outs: seq<Out>, ghost worlds: seq<World>)
    ensures IsHistory(worlds, acts, outs, start) && |worlds| == |acts| + 1 && Mirrors(m, handles, worlds[|acts|])
  {
    worlds := [Start(start)];
    hide Mirrors, Steps, Start;
    m := NewManager(start);
    handles, outs := [], [];
    var now := start;
    assert IsHistory(worlds, [], [], start);
    assert acts[..0] == [];
    hide IsHistory;
    var i := 0;
    while i < |acts|
      invariant i <= |acts| && fresh(m) && fresh(m.all) && fresh(m.timers) && fresh(handles)
      invariant |worlds| == i + 1 && IsHistory(worlds, acts[..i], outs, start)
      invariant Mirrors(m, handles, worlds[i]) && worlds[i].now == now
    {
      var out := Nothing;
      ghost var y := worlds[i];
      MirrorsHalt(m, handles, worlds[i]);
      if !m.halted {
        out, handles, now, y := Step(m, handles, worlds[i], now, acts[i]);
      }
      OneStepMore(worlds, acts[..i], outs, start, acts[i], out, y);
      outs, worlds := outs + [out], worlds + [y];
      i := i + 1;
      assert acts[..i] == acts[..i - 1] + [acts[i - 1]];
    }
    assert acts[..i] == acts;
  }
}
