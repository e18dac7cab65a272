/**
 * The lifecycle of one alert box, as a pure state machine.
 *
 * The state is what the closure of one `$.suiAlert` call and the browser hold for
 * that box: the `hideTimer` variable, the browser's table of pending `setTimeout`
 * timers (handle to remaining milliseconds), whether the progress bar is at full
 * width, and where the box is in its life. Events are the browser's deliveries:
 * hover, time passing, a timer firing, a close click, the end of the fade-out.
 */
module Lifecycle {

  datatype Phase =
    | Visible       // shown without a countdown (a sticky alert)
    | Counting      // the auto-hide countdown is running
    | Paused        // the pointer is over the box; the countdown was cancelled
    | Disappearing  // fading out before removal
    | Removed       // detached from its container; terminal

  datatype AlertState = AlertState(
    sticky: bool,
    delay: nat,                 // autoHideDelay, in milliseconds
    pending: map<nat, nat>,     // timers scheduled and not yet fired or cleared
    hideTimer: nat,             // the handle last stored in `hideTimer`
    nextHandle: nat,            // the handle the next `setTimeout` returns
    barFull: bool,              // progress bar at 100% width, not depleting
    phase: Phase)

  datatype Event =
    | MouseEnter
    | MouseLeave
    | Elapse(ms: nat)
    | TimerExpire(handle: nat)
    | CloseClick
    | FadeDone

  /**
   * The delay a `setTimeout` timer actually waits for a requested delay of `d` ms:
   * the browser converts the delay to a 32-bit signed integer, and a negative
   * result counts as 0.
   */
  function TimerDelay(d: nat): (r: nat)
    ensures r <= d
    ensures d < 0x8000_0000 ==> r == d
    ensures 0x8000_0000 <= d < 0x1_0000_0000 ==> r == 0
  {
    var w := d % 0x1_0000_0000;
    if w < 0x8000_0000 then w else 0
  }

  /** Requested delays that differ by 2^32 ms wait equally long. */
  lemma TimerDelayWraps(d: nat)
    ensures TimerDelay(d + 0x1_0000_0000) == TimerDelay(d)
  {
    assert (d + 0x1_0000_0000) % 0x1_0000_0000 == d % 0x1_0000_0000;
  }

  /** `uiAlertHideWithDelay`: deplete the bar and store a fresh timer in `hideTimer`,
      without clearing the timer that was there. */
  function HideWithDelay(s: AlertState): (r: AlertState)
    ensures r.hideTimer in r.pending && r.pending[r.hideTimer] == TimerDelay(s.delay)
    ensures r.hideTimer == s.nextHandle < r.nextHandle
    ensures forall h | h in s.pending && h != s.nextHandle :: h in r.pending && r.pending[h] == s.pending[h]
    ensures r.pending.Keys == s.pending.Keys + {r.hideTimer} && r.nextHandle == s.nextHandle + 1
    ensures !r.barFull && r.phase == s.phase && r.sticky == s.sticky && r.delay == s.delay
  {
    s.(pending := s.pending[s.nextHandle := TimerDelay(s.delay)],
       hideTimer := s.nextHandle,
       nextHandle := s.nextHandle + 1,
       barFull := false)
  }

  /** `uiAlertPause`: `clearTimeout(hideTimer)` and reset the bar to full. */
  function Pause(s: AlertState): (r: AlertState)
    ensures s.hideTimer !in r.pending && r.barFull
    ensures forall h | h in s.pending && h != s.hideTimer :: h in r.pending && r.pending[h] == s.pending[h]
    ensures r.pending.Keys <= s.pending.Keys
    ensures r.hideTimer == s.hideTimer && r.phase == s.phase && r.nextHandle == s.nextHandle
    ensures r.sticky == s.sticky && r.delay == s.delay
  {
    s.(pending := s.pending - {s.hideTimer}, barFull := true)
  }

  /** The state right after a `$.suiAlert` call: `hideTimer` is 0, and a non-sticky
      alert has started its countdown. */
  function Init(sticky: bool, delay: nat): (s: AlertState)
    ensures s.sticky == sticky && s.delay == delay
    ensures s.phase == (if sticky then Visible else Counting)
    ensures s.barFull == sticky
    ensures sticky ==> s.pending == map[]
    ensures !sticky ==> s.pending == map[s.hideTimer := TimerDelay(delay)]
  {
    var shown := AlertState(sticky, delay, map[], 0, 1, true, Visible);
    if sticky then shown else HideWithDelay(shown.(phase := Counting))
  }

  /** Remaining time after `ms` milliseconds pass. */
  function Countdown(remaining: nat, ms: nat): nat
  {
    if remaining <= ms then 0 else remaining - ms
  }

  /** One event. Hover and close handlers are bound only while the box is in the
      document (`remove()` unbinds them), and hover only for a non-sticky alert;
      timers run on regardless. */
  function Step(s: AlertState, e: Event): (r: AlertState)
    ensures r.sticky == s.sticky && r.delay == s.delay
    ensures Rank(s.phase) <= Rank(r.phase)
    ensures r.nextHandle >= s.nextHandle
    ensures e != CloseClick && s.phase in {Visible, Counting, Paused} && r.phase == Disappearing ==>
      e.TimerExpire? && e.handle in s.pending && s.pending[e.handle] == 0
    ensures e != MouseEnter && e != MouseLeave && Rank(r.phase) == 0 ==> r.phase == s.phase
    ensures e.TimerExpire? && e.handle in s.pending && s.pending[e.handle] == 0 && s.phase != Removed ==>
      r.phase == Disappearing && e.handle !in r.pending
  {
    match e
    case MouseEnter =>
      if s.sticky || s.phase == Removed then s
      else Pause(s).(phase := if s.phase == Counting then Paused else s.phase)
    case MouseLeave =>
      if s.sticky || s.phase == Removed then s
      else HideWithDelay(s).(phase := if s.phase == Paused then Counting else s.phase)
    case Elapse(ms) =>
      s.(pending := map h | h in s.pending :: Countdown(s.pending[h], ms))
    case TimerExpire(h) =>
      if h in s.pending && s.pending[h] == 0 then
        s.(pending := s.pending - {h},
           phase := if s.phase == Removed then Removed else Disappearing)
      else s
    case CloseClick =>
      if s.phase == Removed then s else s.(phase := Disappearing)
    case FadeDone =>
      if s.phase == Disappearing then s.(phase := Removed) else s
  }

  /** How far along its life a phase is: hover moves between the live phases, and
      every other change moves forward. */
  function Rank(p: Phase): nat
  {
    match p
    case Visible => 0
    case Counting => 0
    case Paused => 0
    case Disappearing => 1
    case Removed => 2
  }

  function Run(s: AlertState, events: seq<Event>): AlertState
    decreases |events|
  {
    if events == [] then s else Run(Step(s, events[0]), events[1..])
  }

  /**
   * The invariant every reachable state keeps: handles are fresh when issued;
   * a sticky alert has no timer, a full bar and never counts or pauses; a
   * counting alert's countdown is pending with the bar depleting, and a paused
   * alert's bar is full.
   */
  ghost predicate WellFormed(s: AlertState)
  {
    && (forall h | h in s.pending :: 0 < h < s.nextHandle)
    && s.hideTimer < s.nextHandle
    && (s.sticky ==> s.pending == map[] && s.barFull && s.phase in {Visible, Disappearing, Removed})
    && (!s.sticky ==> s.phase != Visible)
    && (s.phase == Counting ==> s.hideTimer in s.pending && !s.barFull)
    && (s.phase == Paused ==> s.barFull)
  }

  lemma InitWellFormed(sticky: bool, delay: nat)
    ensures WellFormed(Init(sticky, delay))
    ensures Init(sticky, delay).phase == (if sticky then Visible else Counting)
    ensures !sticky ==> Init(sticky, delay).pending == map[1 := TimerDelay(delay)]
  {
  }

  lemma StepWellFormed(s: AlertState, e: Event)
    requires WellFormed(s)
    ensures WellFormed(Step(s, e))
  {
  }

  lemma {:induction false} RunWellFormed(s: AlertState, events: seq<Event>)
    requires WellFormed(s)
    ensures WellFormed(Run(s, events))
    ensures Run(s, events).sticky == s.sticky && Run(s, events).delay == s.delay
    decreases |events|
  {
    if events != [] {
      StepWellFormed(s, events[0]);
      RunWellFormed(Step(s, events[0]), events[1..]);
    }
  }

  /** A sticky alert never gets a timer and never counts down or pauses. */
  lemma StickyNeverCounts(delay: nat, events: seq<Event>)
    ensures Run(Init(true, delay), events).pending == map[]
    ensures Run(Init(true, delay), events).phase !in {Counting, Paused}
  {
    InitWellFormed(true, delay);
    RunWellFormed(Init(true, delay), events);
  }

  /** A sticky alert stays visible until a close click arrives. */
  lemma {:induction false} StickyLeavesOnlyByClose(s: AlertState, events: seq<Event>)
    requires WellFormed(s) && s.sticky && s.phase == Visible
    requires CloseClick !in events
    ensures Run(s, events) == s
    decreases |events|
  {
    if events != [] {
      assert events[0] != CloseClick;
      assert Step(s, events[0]) == s;
      assert CloseClick !in events[1..];
      StickyLeavesOnlyByClose(s, events[1..]);
    }
  }

  /** A close click starts the fade-out from any live phase, sticky or not, and
      leaves any pending timer in place. */
  lemma CloseAlwaysDismisses(s: AlertState)
    requires s.phase != Removed
    ensures Step(s, CloseClick).phase == Disappearing
    ensures Step(s, CloseClick).pending == s.pending
    ensures Run(s, [CloseClick, FadeDone]).phase == Removed
  {
  }

  /** Once fading out, nothing but the end of the fade changes the phase: hover,
      timers and further clicks are absorbed. */
  lemma {:induction false} DisappearingUntilFadeDone(s: AlertState, events: seq<Event>)
    requires s.phase == Disappearing
    requires FadeDone !in events
    ensures Run(s, events).phase == Disappearing
    decreases |events|
  {
    if events != [] {
      assert events[0] != FadeDone;
      assert FadeDone !in events[1..];
      DisappearingUntilFadeDone(Step(s, events[0]), events[1..]);
    }
  }

  /** Removal is terminal: no later event brings the box back. */
  lemma {:induction false} RemovedIsTerminal(s: AlertState, events: seq<Event>)
    requires s.phase == Removed
    ensures Run(s, events).phase == Removed
    ensures Run(s, events).barFull == s.barFull && Run(s, events).hideTimer == s.hideTimer
    ensures Run(s, events).pending.Keys <= s.pending.Keys
    decreases |events|
  {
    if events != [] {
      RemovedIsTerminal(Step(s, events[0]), events[1..]);
    }
  }

  /** `mouseleave` restarts the countdown from the full delay, whatever time the
      earlier countdown had left, and depletes the bar again. */
  lemma LeaveRestartsFullDelay(s: AlertState)
    requires WellFormed(s) && !s.sticky && s.phase == Paused
    ensures var t := Step(s, MouseLeave);
      t.phase == Counting && t.hideTimer in t.pending && t.pending[t.hideTimer] == TimerDelay(s.delay)
      && t.hideTimer !in s.pending && !t.barFull
  {
  }

  /** `mouseenter` cancels the countdown `hideTimer` holds and resets the bar. */
  lemma EnterCancelsCountdown(s: AlertState)
    requires WellFormed(s) && s.phase == Counting
    ensures var t := Step(s, MouseEnter);
      t.phase == Paused && t.hideTimer !in t.pending && t.barFull
      && t.pending.Keys == s.pending.Keys - {s.hideTimer}
  {
  }

  /** Running two event sequences in turn is running their concatenation. */
  lemma {:induction false} RunAppend(s: AlertState, first: seq<Event>, second: seq<Event>)
    ensures Run(s, first + second) == Run(Run(s, first), second)
    decreases |first|
  {
    if first == [] {
      assert first + second == second;
    } else {
      assert (first + second)[0] == first[0];
      assert (first + second)[1..] == first[1..] + second;
      RunAppend(Step(s, first[0]), first[1..], second);
    }
  }

  /** True when every event only lets time pass. */
  predicate OnlyTime(events: seq<Event>)
  {
    forall i | 0 <= i < |events| :: events[i].Elapse?
  }

  /** The total time a sequence of `Elapse` events lets pass. */
  function Waited(events: seq<Event>): nat
    requires OnlyTime(events)
    decreases |events|
  {
    if events == [] then 0 else events[0].ms + Waited(events[1..])
  }

  /** Counting down in two steps is counting down by their sum. */
  lemma CountdownAdds(remaining: nat, a: nat, b: nat)
    ensures Countdown(Countdown(remaining, a), b) == Countdown(remaining, a + b)
  {
  }

  /** Time passing in any number of steps counts every pending timer down by the
      total, and changes nothing else. */
  lemma {:induction false} TimePasses(s: AlertState, events: seq<Event>)
    requires OnlyTime(events)
    ensures Run(s, events) == s.(pending := map h | h in s.pending :: Countdown(s.pending[h], Waited(events)))
    decreases |events|
  {
    if events == [] {
      assert s.pending == map h | h in s.pending :: Countdown(s.pending[h], 0);
    } else {
      var t := Step(s, events[0]);
      assert OnlyTime(events[1..]);
      TimePasses(t, events[1..]);
      forall h | h in s.pending
        ensures Countdown(t.pending[h], Waited(events[1..])) == Countdown(s.pending[h], Waited(events))
      {
        CountdownAdds(s.pending[h], events[0].ms, Waited(events[1..]));
      }
    }
  }

  /** Left alone, a non-sticky alert starts to fade exactly once the time its timer
      waits has passed, in however many steps that time passes. */
  lemma ExpiresAfterDelay(delay: nat, waiting: seq<Event>)
    requires OnlyTime(waiting)
    ensures Run(Init(false, delay), waiting + [TimerExpire(1)]).phase ==
      (if Waited(waiting) < TimerDelay(delay) then Counting else Disappearing)
  {
    var s := Init(false, delay);
    RunAppend(s, waiting, [TimerExpire(1)]);
    TimePasses(s, waiting);
    var t := Run(s, waiting);
    assert t.pending == map[1 := Countdown(TimerDelay(delay), Waited(waiting))];
    assert Run(t, [TimerExpire(1)]) == Step(t, TimerExpire(1));
  }

  /** Whether the pointer is over the box after the hover events in `events`. */
  function PointerInside(inside: bool, events: seq<Event>): bool
    decreases |events|
  {
    if events == [] then inside
    else if events[0] == MouseEnter then PointerInside(true, events[1..])
    else if events[0] == MouseLeave then PointerInside(false, events[1..])
    else PointerInside(inside, events[1..])
  }

  /** The browser's discipline: `mouseenter` only while outside, `mouseleave` only
      while inside. */
  predicate Paired(inside: bool, events: seq<Event>)
    decreases |events|
  {
    if events == [] then true
    else if events[0] == MouseEnter then !inside && Paired(true, events[1..])
    else if events[0] == MouseLeave then inside && Paired(false, events[1..])
    else Paired(inside, events[1..])
  }

  /** What keeps timers from piling up: only `hideTimer` can be pending, and none
      while the pointer is over a live, non-sticky box. */
  ghost predicate OneTimer(s: AlertState, inside: bool)
  {
    && s.pending.Keys <= {s.hideTimer}
    && (inside && !s.sticky && s.phase != Removed ==> s.pending == map[])
  }

  lemma OneTimerStep(s: AlertState, inside: bool, e: Event)
    requires OneTimer(s, inside)
    requires e == MouseEnter ==> !inside
    requires e == MouseLeave ==> inside
    ensures OneTimer(Step(s, e), if e == MouseEnter then true else if e == MouseLeave then false else inside)
  {
  }

  lemma {:induction false} OneTimerRun(s: AlertState, inside: bool, events: seq<Event>)
    requires OneTimer(s, inside) && Paired(inside, events)
    ensures OneTimer(Run(s, events), PointerInside(inside, events))
    decreases |events|
  {
    if events != [] {
      var e := events[0];
      var inside' := if e == MouseEnter then true else if e == MouseLeave then false else inside;
      OneTimerStep(s, inside, e);
      OneTimerRun(Step(s, e), inside', events[1..]);
    }
  }

  lemma AtMostOneKey(m: map<nat, nat>, h: nat)
    requires m.Keys <= {h}
    ensures |m| <= 1
  {
    if m.Keys != {} {
      assert m.Keys == {h};
    }
    assert |m| == |m.Keys|;
  }

  /**
   * With the browser's paired hover events, an alert has at most one pending
   * timer, and none while the pointer rests on it. This rests on `mouseenter`
   * clearing `hideTimer` before any `mouseleave` overwrites it.
   */
  lemma PairedHoverKeepsOneTimer(sticky: bool, delay: nat, events: seq<Event>)
    requires Paired(false, events)
    ensures |Run(Init(sticky, delay), events).pending| <= 1
    ensures var t := Run(Init(sticky, delay), events);
      PointerInside(false, events) && t.phase != Removed ==> t.pending == map[]
  {
    var t := Run(Init(sticky, delay), events);
    OneTimerRun(Init(sticky, delay), false, events);
    AtMostOneKey(t.pending, t.hideTimer);
    RunWellFormed(Init(sticky, delay), events);
  }

  /** Without pairing, `mouseleave` on a counting alert stacks a second timer that
      `mouseenter` cannot clear, and that timer ends the alert while paused. */
  lemma UnpairedLeaveStacksTimers(delay: nat)
    ensures Run(Init(false, delay), [MouseLeave]).pending.Keys == {1, 2}
    ensures Run(Init(false, delay), [MouseLeave, MouseEnter]).pending.Keys == {1}
    ensures Run(Init(false, delay), [MouseLeave, MouseEnter]).phase == Paused
    ensures Run(Init(false, delay), [MouseLeave, MouseEnter, Elapse(delay), TimerExpire(1)]).phase == Disappearing
  {
    var s0 := Init(false, delay);
    var s1 := Step(s0, MouseLeave);
    var s2 := Step(s1, MouseEnter);
    var s3 := Step(s2, Elapse(delay));
    assert Run(s0, [MouseLeave]) == s1;
    assert Run(s0, [MouseLeave, MouseEnter]) == Run(s1, [MouseEnter]) == s2;
    assert s2.pending == map[1 := TimerDelay(delay)];
    assert s3.pending == map[1 := 0];
    assert Run(s0, [MouseLeave, MouseEnter, Elapse(delay), TimerExpire(1)])
        == Run(s1, [MouseEnter, Elapse(delay), TimerExpire(1)])
        == Run(s2, [Elapse(delay), TimerExpire(1)])
        == Run(s3, [TimerExpire(1)]);
  }

  /** A `mouseleave` during the fade-out schedules a new timer, and the alert
      still goes on to be removed. */
  lemma LeaveWhileDisappearing(s: AlertState)
    requires !s.sticky && s.phase == Disappearing
    ensures Step(s, MouseLeave).phase == Disappearing
    ensures s.nextHandle in Step(s, MouseLeave).pending
    ensures Run(s, [MouseLeave, FadeDone]).phase == Removed
  {
  }
}
