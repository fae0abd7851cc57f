/** The `Controller`: the application clock (first and latest frame time)
    and the debounce around window resizing, which pauses the view, resizes
    the canvas and unpauses once a 250 ms timer runs out without a further
    resize. Timers are explicit: `setTimeout` hands out the next positive
    id, `clearTimeout` removes a pending id, and `Expire(id)` is the event
    of timer `id` running out. `isPaused` and the resize count stand for
    the view's `isPaused` flag and its `resizeCanvas` calls. */
module ControllerModel {

  /** The time fields `updateTime` maintains. */
  datatype Clock = Clock(startTime: real, currentTime: real)

  /** `updateTime(timeStamp)`: the start time is taken only while it is
      unset (0); the current time is always the latest stamp. */
  function Tick(c: Clock, timeStamp: real): (r: Clock)
    ensures r.currentTime == timeStamp
    ensures c.startTime != 0.0 ==> r.startTime == c.startTime
    ensures c.startTime == 0.0 ==> r.startTime == timeStamp
  {
    Clock(if c.startTime == 0.0 then timeStamp else c.startTime, timeStamp)
  }

  /** The clock after one `updateTime` per frame, in order. */
  function Ticks(c: Clock, stamps: seq<real>): Clock
    decreases |stamps|
  {
    if stamps == [] then c else Ticks(Tick(c, stamps[0]), stamps[1..])
  }

  /** The first nonzero stamp, or 0 if there is none. */
  function FirstNonzero(stamps: seq<real>): (t: real)
    ensures t != 0.0 ==> t in stamps
  {
    if stamps == [] then 0.0
    else if stamps[0] != 0.0 then stamps[0]
    else FirstNonzero(stamps[1..])
  }

  /** From a fresh clock, any run of frames leaves the first nonzero stamp
      as the start time and the last stamp as the current time; once the
      start time is set, no later frame changes it. */
  lemma {:induction false} TicksRecordFirstAndLast(c: Clock, stamps: seq<real>)
    ensures c.startTime != 0.0 ==> Ticks(c, stamps).startTime == c.startTime
    ensures c.startTime == 0.0 ==> Ticks(c, stamps).startTime == FirstNonzero(stamps)
    ensures Ticks(c, stamps).currentTime == if stamps == [] then c.currentTime else stamps[|stamps| - 1]
    decreases |stamps|
  {
    if stamps != [] {
      TicksRecordFirstAndLast(Tick(c, stamps[0]), stamps[1..]);
    }
  }

  /** The debounce state: the pending timer id (0 for none), the view's
      pause flag, the set of timers scheduled and neither cleared nor run
      out, the id the next `setTimeout` returns, and how often the canvas
      has been resized. */
  datatype Debounce = Debounce(resizeTimeout: nat, isPaused: bool, pending: set<nat>, nextId: nat, resizes: nat)

  const Idle: Debounce := Debounce(0, false, {}, 1, 0)

  /** At most one timer is pending, it is the one `resizeTimeout` names,
      and the view is paused exactly while it is pending. */
  ghost predicate Inv(d: Debounce) {
    && 1 <= d.nextId
    && d.resizeTimeout < d.nextId
    && d.pending == (if d.resizeTimeout == 0 then {} else {d.resizeTimeout})
    && (d.isPaused <==> d.resizeTimeout != 0)
  }

  /** `handleResize`: pause, resize the canvas, clear the pending timer if
      there is one, and schedule a fresh one. */
  function Resized(d: Debounce): (r: Debounce)
    ensures r.isPaused && r.resizes == d.resizes + 1
    ensures r.resizeTimeout == d.nextId && r.resizeTimeout in r.pending
    ensures Inv(d) && d.resizeTimeout != 0 ==> d.resizeTimeout !in r.pending
    ensures Inv(d) ==> Inv(r) && r.pending == {r.resizeTimeout}
  {
    var cleared := if d.resizeTimeout != 0 then d.pending - {d.resizeTimeout} else d.pending;
    Debounce(d.nextId, true, cleared + {d.nextId}, d.nextId + 1, d.resizes + 1)
  }

  /** Timer `id` runs out: only a pending timer fires, and then it clears
      `resizeTimeout` and unpauses the view. */
  function Expired(d: Debounce, id: nat): (r: Debounce)
    ensures id !in d.pending ==> r == d
    ensures id in d.pending ==> r.resizeTimeout == 0 && !r.isPaused && id !in r.pending
    ensures r.resizes == d.resizes && r.nextId == d.nextId
    ensures Inv(d) ==> Inv(r)
  {
    if id in d.pending then d.(resizeTimeout := 0, isPaused := false, pending := d.pending - {id})
    else d
  }

  datatype Event = Resize | Expire(id: nat)

  function Run(d: Debounce, events: seq<Event>): Debounce
    decreases |events|
  {
    if events == [] then d
    else
      var next := match events[0] case Resize => Resized(d) case Expire(id) => Expired(d, id);
      Run(next, events[1..])
  }

  /** How many of the events are resizes, i.e. `resizeCanvas` calls. */
  function ResizeCount(events: seq<Event>): (n: nat)
    ensures n <= |events|
  {
    if events == [] then 0 else (if events[0].Resize? then 1 else 0) + ResizeCount(events[1..])
  }

  /** Every run of resizes and expiries keeps the debounce invariant, and
      the canvas is resized exactly once per resize event. */
  /** Counting resizes distributes over consecutive runs of events. */
  lemma {:induction false} ResizeCountAppend(a: seq<Event>, b: seq<Event>)
    ensures ResizeCount(a + b) == ResizeCount(a) + ResizeCount(b)
    decreases |a|
  {
    if a != [] {
      assert (a + b)[0] == a[0] && (a + b)[1..] == a[1..] + b;
      ResizeCountAppend(a[1..], b);
    } else {
      assert a + b == b;
    }
  }

  /** Running two event sequences one after the other is running their
      concatenation. */
  lemma {:induction false} RunAppend(d: Debounce, a: seq<Event>, b: seq<Event>)
    ensures Run(d, a + b) == Run(Run(d, a), b)
    decreases |a|
  {
    if a != [] {
      assert (a + b)[0] == a[0] && (a + b)[1..] == a[1..] + b;
      var next := match a[0] case Resize => Resized(d) case Expire(id) => Expired(d, id);
      RunAppend(next, a[1..], b);
    } else {
      assert a + b == b;
    }
  }

  lemma {:induction false} RunKeepsInv(d: Debounce, events: seq<Event>)
    requires Inv(d)
    ensures Inv(Run(d, events))
    ensures Run(d, events).resizes == d.resizes + ResizeCount(events)
    decreases |events|
  {
    if events != [] {
      var next := match events[0] case Resize => Resized(d) case Expire(id) => Expired(d, id);
      RunKeepsInv(next, events[1..]);
    }
  }

  /** A timer cleared by a later resize never fires: its expiry changes
      nothing, and the view stays paused. */
  lemma ClearedTimerNeverFires(d: Debounce)
    requires Inv(d) && d.resizeTimeout != 0
    ensures Expired(Resized(d), d.resizeTimeout) == Resized(d)
    ensures Expired(Resized(d), d.resizeTimeout).isPaused
  {
  }

  /** After a resize the view unpauses on the expiry of the latest timer. */
  lemma LatestTimerUnpauses(d: Debounce)
    requires Inv(d)
    ensures var r := Resized(d);
      !Expired(r, r.resizeTimeout).isPaused && Inv(Expired(r, r.resizeTimeout))
  {
  }

  /** A burst of resizes ends paused with one pending timer: only the last
      timer of the burst is left to fire. */
  lemma {:induction false} BurstLeavesOneTimer(d: Debounce, n: nat)
    requires Inv(d) && n >= 1
    ensures var r := Run(d, seq(n, _ => Resize));
      r.isPaused && r.pending == {r.resizeTimeout} && r.resizeTimeout == d.nextId + n - 1
    decreases n
  {
    var burst := seq(n, _ => Resize);
    assert burst[0] == Resize && burst[1..] == seq(n - 1, _ => Resize);
    if n > 1 {
      BurstLeavesOneTimer(Resized(d), n - 1);
    }
  }

  class Controller {
    var startTime: real
    var currentTime: real
    var resizeTimeout: nat
    var isPaused: bool
    var resizes: nat
    var pending: set<nat>
    var nextId: nat

    function Time(): Clock
      reads this
    {
      Clock(startTime, currentTime)
    }

    function Timers(): Debounce
      reads this
    {
      Debounce(resizeTimeout, isPaused, pending, nextId, resizes)
    }

    ghost predicate Valid()
      reads this
    {
      Inv(Timers())
    }

    /** `new Controller(context)`: no start or current time, no pending timer. */
    constructor ()
      ensures Valid()
      ensures Time() == Clock(0.0, 0.0) && Timers() == Idle
    {
      startTime, currentTime := 0.0, 0.0;
      resizeTimeout := 0;
      isPaused, resizes := false, 0;
      pending, nextId := {}, 1;
    }

    method UpdateTime(timeStamp: real)
      modifies this
      ensures Time() == Tick(old(Time()), timeStamp)
      ensures Timers() == old(Timers())
    {
      if startTime == 0.0 {
        startTime := timeStamp;
      }
      currentTime := timeStamp;
    }

    method HandleResize()
      modifies this
      ensures Timers() == Resized(old(Timers()))
      ensures Time() == old(Time())
      ensures old(Valid()) ==> Valid()
    {
      isPaused := true;
      resizes := resizes + 1;
      if resizeTimeout != 0 {
        pending := pending - {resizeTimeout};
      }
      var id := nextId;
      nextId := nextId + 1;
      pending := pending + {id};
      resizeTimeout := id;
    }

    /** The timer `id` runs out; the callback runs only if it is pending. */
    method Expire(id: nat)
      modifies this
      ensures Timers() == Expired(old(Timers()), id)
      ensures Time() == old(Time())
      ensures old(Valid()) ==> Valid()
    {
      if id in pending {
        pending := pending - {id};
        resizeTimeout := 0;
        isPaused := false;
      }
    }
  }
}
