/** Whole histories of the manager of src/fiber/iomanager.cpp, in which steps of all threads come in any order. */
module IoHistory {
  import Timing = TimerManagement
  import opened IoTable
  import opened IoBooks

  /** Each action on a context names it by the order in which contexts were made. `Grow` is addEvent's part under
      the write lock, for a descriptor that was beyond the table when the read lock was let go. */
  datatype Action =
    | Grow(fd: nat)
    | Attach(k: nat, e: Event, w: Present, ok: bool)
    | Delete(k: nat, e: Event, ok: bool)
    | Cancel(k: nat, e: Event, ok: bool)
    | CancelAll(k: nat, ok: bool)
    | Dispatch(k: nat, reported: set<Event>, error: bool, ok: bool)
    | Begin
    | Finish(task: Waiter)
    | Shut
    | Ask(wait: nat)                     // stopping
    | Timers(wait: nat, a: Timing.Action)     // idle's listExpiredCb, and what others do to the timers

  datatype Out =
    | Nothing
    | Code(code: int)
    | Answer(ok: bool)
    | Took(w: Waiter)
    | Ran(cbs: seq<Timing.Callback>)

  datatype World = World(io: Io, book: Timing.Book, now: nat)

  function Blank(): Io {
    Io([], [], [], [], multiset{}, false, false, multiset{}, multiset{}, multiset{}, multiset{}, multiset{})
  }

  function Start(now: nat): World {
    World(Resized(Blank(), 32), Timing.Book([], false, 0), now)
  }

  ghost predicate NoPlan(b: Timing.Book) {
    Timing.LeastOf(b.plans).Never?
  }

  /** An action on one context; out of range it is none. */
  function OnContext(io: Io, a: Action): (Io, Out)
    requires |io.fds| == |io.rows|
  {
    match a
    case Attach(k, e, w, ok) =>
      if k < |io.rows| then var r := Attached(io, k, e, w, ok); (r.0, Code(r.1)) else (io, Nothing)
    case Delete(k, e, ok) => if k < |io.rows| then var r := Deleted(io, k, e, ok); (r.0, Answer(r.1)) else (io, Nothing)
    case Cancel(k, e, ok) => if k < |io.rows| then var r := Cancelled(io, k, e, ok); (r.0, Answer(r.1)) else (io, Nothing)
    case CancelAll(k, ok) => if k < |io.rows| then var r := CancelledAll(io, k, ok); (r.0, Answer(r.1)) else (io, Nothing)
    case Dispatch(k, reported, error, ok) =>
      (if k < |io.rows| then Dispatched(io, k, reported, error, ok) else io, Nothing)
    case _ => (io, Nothing)
  }

  /** The callbacks that are due, in the order of their deadlines. */
  ghost predicate AreDue(b: Timing.Book, now: nat, cbs: seq<Timing.Callback>) {
    exists order :: Timing.IsDue(b.plans, now, order) && cbs == Timing.CallsIn(b.plans, order)
  }

  /** What an action other than those on the timers makes of the manager. */
  ghost predicate ManagerSteps(x: Io, a: Action, out: Out, y: Io) {
    && |x.fds| == |x.rows| && |y.fds| == |y.rows|
    && match a
       case Grow(fd) => out == Nothing && y == if 32 <= fd then Resized(x, fd * 3 / 2) else x
       case Begin => if x.tasks == [] then out == Nothing && y == x else out == Took(x.tasks[0]) && y == Begun(x)
       case Finish(w) => out == Nothing && y == if w in x.running then Finished(x, w) else x
       case Shut => out == Nothing && y == x.(isStopped := true)
       case _ => (y, out) == OnContext(x, a)
  }

  /** One step of a process that has not ended. */
  ghost predicate Steps(x: World, a: Action, out: Out, y: World) {
    match a
    case Ask(wait) =>
      && out == Answer(Stops(x.io, !NoPlan(x.book)))
      && y == World(x.io, Timing.Act(x.book, Timing.Poll, x.now + wait), x.now + wait)
    case Timers(wait, b) =>
      var book, now := Timing.Act(x.book, b, x.now + wait), x.now + wait;
      if b.Expire? then out.Ran? && AreDue(x.book, now, out.cbs) && y == World(Called(x.io, out.cbs), book, now)
      else out == Nothing && y == World(x.io, book, now)
    case _ => ManagerSteps(x.io, a, out, y.io) && y == x.(io := y.io)
  }

  lemma ManagerStepsAre(x: World, a: Action, out: Out, y: World)
    requires ManagerSteps(x.io, a, out, y.io) && y == x.(io := y.io) && !a.Ask? && !a.Timers?
    ensures Steps(x, a, out, y) && |y.io.fds| == |y.io.rows|
  {
  }

  ghost predicate StepsOrEnded(x: World, a: Action, out: Out, y: World) {
    if x.io.halted then out == Nothing && y == x else Steps(x, a, out, y)
  }

  ghost predicate IsHistory(worlds: seq<World>, acts: seq<Action>, outs: seq<Out>, start: nat) {
    && |worlds| == |acts| + 1 && |outs| == |acts| && worlds[0] == Start(start)
    && forall k :: 0 <= k < |acts| ==> StepsOrEnded(worlds[k], acts[k], outs[k], worlds[k + 1])
  }

  lemma StartGood(now: nat)
    ensures Good(Start(now).io) && !Start(now).io.halted && Pending(Start(now).io.rows) == 0
    ensures Start(now).io == Resized(Blank(), 32)
  {
    GrownSame([], 32);
    NothingAdded(multiset{}, multiset{});
    FreeIsOk();
  }

  lemma OnContextGood(io: Io, a: Action)
    requires Good(io) && !io.halted
    ensures Good(OnContext(io, a).0)
  {
    hide Good, Entered, Dropped, Released, TriggeredAll, Takes;
    HaltedGood(io);
    GoodSizes(io);
    match a
    case Attach(k, e, w, ok) => if k < |io.rows| && e !in io.rows[k].events && Takes(io, k) { EnteredGood(io, k, e, w); }
    case Delete(k, e, ok) => if k < |io.rows| && e in io.rows[k].events { DroppedGood(io, k, e); }
    case Cancel(k, e, ok) => if k < |io.rows| && e in io.rows[k].events { ReleasedGood(io, k, e); }
    case CancelAll(k, ok) => if k < |io.rows| { TriggeredAllGood(io, k, io.rows[k].events); }
    case Dispatch(k, reported, error, ok) =>
      if k < |io.rows| { TriggeredAllGood(io, k, Ready(io.rows[k], reported, error)); }
    case _ =>
  }

  lemma GoodSizes(io: Io)
    requires Good(io)
    ensures |io.fds| == |io.rows|
  {
  }

  lemma CalledSizes(io: Io, cbs: seq<Timing.Callback>)
    ensures Called(io, cbs).fds == io.fds && Called(io, cbs).rows == io.rows && Called(io, cbs).halted == io.halted
  {
  }

  lemma ShutGood(io: Io)
    ensures Good(io.(isStopped := true)) <==> Good(io)
  {
  }

  lemma StepsGood(x: World, a: Action, out: Out, y: World)
    requires Good(x.io) && !x.io.halted && Steps(x, a, out, y)
    ensures Good(y.io)
  {
    hide Good, Resized, Called, Begun, Finished, Stops, AreDue;
    match a
    case Grow(fd) => if 32 <= fd { ResizedGood(x.io, fd * 3 / 2); }
    case Begin => if x.io.tasks != [] { BegunGood(x.io); }
    case Finish(w) => if w in x.io.running { FinishedGood(x.io, w); }
    case Shut => ShutGood(x.io);
    case Ask(_) =>
    case Timers(_, b) => if b.Expire? { CalledGood(x.io, out.cbs); }
    case _ => OnContextGood(x.io, a);
  }

  /** In every history, with any steps of any threads between the locks of any operation, the books are good at
      every moment. */
  lemma {:induction false} HistoryGood(worlds: seq<World>, acts: seq<Action>, outs: seq<Out>, start: nat, k: nat)
    requires IsHistory(worlds, acts, outs, start) && k < |worlds|
    ensures Good(worlds[k].io)
  {
    hide Good, Steps, Start;
    if k == 0 {
      StartGood(start);
    } else {
      HistoryGood(worlds, acts, outs, start, k - 1);
      if !worlds[k - 1].io.halted { StepsGood(worlds[k - 1], acts[k - 1], outs[k - 1], worlds[k]); }
    }
  }

  /** The stop is right: in every history stopping answers true exactly if no context, in the table or out of it,
      has an event registered, no timer is queued, the scheduler is stopped, and nothing is listed or run; and
      then every waiter and every callback that came in was run to its end or dropped. */
  lemma StopMeans(worlds: seq<World>, acts: seq<Action>, outs: seq<Out>, start: nat, k: nat)
    requires IsHistory(worlds, acts, outs, start) && k < |acts| && acts[k].Ask? && !worlds[k].io.halted
    ensures var io := worlds[k].io;
            && (outs[k] == Answer(true) <==>
                  && (forall c :: 0 <= c < |io.rows| ==> io.rows[c] == FREE)
                  && (forall i :: 0 <= i < |worlds[k].book.plans| ==> !worlds[k].book.plans[i].queued)
                  && io.isStopped && io.tasks == [] && io.running == multiset{})
            && (outs[k] == Answer(true) ==> io.added + io.called == io.done + io.dropped)
  {
    var x := worlds[k];
    HistoryGood(worlds, acts, outs, start, k);
    assert Steps(x, acts[k], outs[k], worlds[k + 1]);
    AskAnswers(x, acts[k], outs[k], worlds[k + 1]);
    hide IsHistory, Steps, Timing.LeastOf;
    NothingPending(x.io.rows);
    FreeRows(x.io.rows);
    Queueless(x.book.plans);
    assert |x.io.running| == 0 <==> x.io.running == multiset{};
    if outs[k] == Answer(true) { AllDone(x.io); }
  }

  lemma AskAnswers(x: World, a: Action, out: Out, y: World)
    requires Steps(x, a, out, y) && a.Ask?
    ensures out == Answer(Stops(x.io, !NoPlan(x.book)))
  {
  }

  lemma FreeRows(t: Table)
    requires forall c :: 0 <= c < |t| ==> SlotsOk(t[c])
    ensures forall c :: 0 <= c < |t| ==> (t[c].events == {} <==> t[c] == FREE)
  {
    forall c | 0 <= c < |t| ensures t[c].events == {} <==> t[c] == FREE {
      if t[c].events == {} { assert Slot(t[c], READ) == Nobody && Slot(t[c], WRITE) == Nobody; }
    }
  }

  lemma Queueless(plans: seq<Timing.Plan>)
    ensures Timing.LeastOf(plans).Never? <==> forall i :: 0 <= i < |plans| ==> !plans[i].queued
  {
  }

  lemma AllDone(io: Io)
    requires Good(io) && Stops(io, false)
    ensures io.added + io.called == io.done + io.dropped
  {
    NobodyWaiting(io.rows);
    NothingAdded(io.scheduled, io.dropped);
    NothingBooked(io.scheduled + io.called, io.running, io.done);
    assert io.added + io.called == (io.scheduled + io.called) + io.dropped;
  }

  lemma StepCutOff(x: World, a: Action, out: Out, y: World, k: nat)
    requires Good(x.io) && !x.io.halted && Steps(x, a, out, y) && CutOff(x.io, k)
    ensures CutOff(y.io, k) && y.io.fds[k] == x.io.fds[k]
  {
    hide Good, AreDue, Stops, OnContext;
    GoodSizes(x.io);
    ContextsStay(x.io, a);
  }

  lemma ContextsStay(io: Io, a: Action)
    requires |io.fds| == |io.rows|
    ensures OnContext(io, a).0.fds == io.fds && OnContext(io, a).0.table == io.table
  {
    hide Takes, TriggeredAll, With, Without, Slot;
    if a.CancelAll? && a.k < |io.rows| { TriggeredStay(io, a.k, io.rows[a.k].events); }
    if a.Dispatch? && a.k < |io.rows| { TriggeredStay(io, a.k, Ready(io.rows[a.k], a.reported, a.error)); }
  }

  lemma TriggeredStay(io: Io, k: nat, ready: set<Event>)
    requires k < |io.rows|
    ensures TriggeredAll(io, k, ready).fds == io.fds && TriggeredAll(io, k, ready).table == io.table
  {
    hide Without, Slot;
  }

  /** A context that a smaller table has cut off never comes back into it. */
  lemma {:induction false} CutOffForGood(worlds: seq<World>, acts: seq<Action>, outs: seq<Out>, start: nat, i: nat, j: nat,
                                         k: nat)
    requires IsHistory(worlds, acts, outs, start) && i <= j < |worlds| && CutOff(worlds[i].io, k)
    ensures CutOff(worlds[j].io, k) && worlds[j].io.fds[k] == worlds[i].io.fds[k]
  {
    hide Good, Steps, CutOff, Start;
    if i < j {
      CutOffForGood(worlds, acts, outs, start, i, j - 1, k);
      HistoryGood(worlds, acts, outs, start, j - 1);
      if !worlds[j - 1].io.halted { StepCutOff(worlds[j - 1], acts[j - 1], outs[j - 1], worlds[j], k); }
    }
  }

  /** In every history, a registered event is within the reach of delEvent, cancelEvent and cancelAll exactly as
      long as its context is in the table. */
  lemma ReachedInHistory(worlds: seq<World>, acts: seq<Action>, outs: seq<Out>, start: nat, i: nat, k: nat, e: Event)
    requires IsHistory(worlds, acts, outs, start) && i < |worlds| && k < |worlds[i].io.rows| && e in worlds[i].io.rows[k].events
    ensures |worlds[i].io.fds| == |worlds[i].io.rows|
    ensures var io := worlds[i].io;
            var fd := io.fds[k];
            && (forall r :: 0 <= r < |io.table| ==> io.table[r] < |io.rows|)
            && (CutOff(io, k) <==> !(fd < |io.table| && Deleted(io, io.table[fd], e, true).1))
            && (CutOff(io, k) <==> !(fd < |io.table| && Cancelled(io, io.table[fd], e, true).1))
  {
    HistoryGood(worlds, acts, outs, start, i);
    var io := worlds[i].io;
    hide IsHistory, SlotsOk, Balanced, Booked;
    ReachedExactly(io, k, e);
    if k in io.table {
      var r :| 0 <= r < |io.table| && io.table[r] == k;
      assert io.fds[io.table[r]] == r;
    }
  }

  lemma OneStepMore(worlds: seq<World>, acts: seq<Action>, outs: seq<Out>, start: nat, a: Action, out: Out, y: World)
    requires IsHistory(worlds, acts, outs, start) && |worlds| == |acts| + 1
    requires StepsOrEnded(worlds[|acts|], a, out, y)
    ensures IsHistory(worlds + [y], acts + [a], outs + [out], start)
  {
    hide StepsOrEnded, Start;
    var ws, bs, os := worlds + [y], acts + [a], outs + [out];
    forall k | 0 <= k < |bs| ensures StepsOrEnded(ws[k], bs[k], os[k], ws[k + 1]) {
      if k < |acts| {
        assert ws[k] == worlds[k] && ws[k + 1] == worlds[k + 1] && bs[k] == acts[k] && os[k] == outs[k];
      } else {
        assert ws[k] == worlds[|acts|] && ws[k + 1] == y && bs[k] == a && os[k] == out;
      }
    }
  }
}
