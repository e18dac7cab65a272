/**
 * The plugin as state that changes in place.
 *
 * `Page` holds what outlives one call: the page-wide `$.suiAlert.defaults`, the
 * containers appended to the document body and the alert boxes inside them, the
 * module-level `gAlertContainer`, and a log of completion-callback invocations.
 * `Alert` holds what the closure of one call holds for its box: `hideTimer`, the
 * browser's pending timers, the progress bar and the box's place in its life.
 */
module Plugin {
  import opened Wrappers
  import opened AlertOptions
  import opened AlertStyle
  import opened Containers
  import opened Lifecycle

  /** One callback invocation, with the containers as they stood when it was made. */
  datatype Invocation = Invocation(call: Call, dom: Registry)

  /** The invocations `calls` make when they run against the document `dom`. */
  function Logged(calls: seq<Call>, dom: Registry): seq<Invocation>
  {
    seq(|calls|, i requires 0 <= i < |calls| => Invocation(calls[i], dom))
  }

  class Page {
    var defaults: Layer
    var body: seq<string>
    var children: map<string, seq<nat>>
    var current: Option<string>
    var nextId: nat
    var callbacks: seq<Invocation>

    /** The containers and their alert boxes, as a value. */
    function Dom(): Registry
      reads this
    {
      Registry(body, children)
    }

    ghost predicate Valid()
      reads this
    {
      Containers.Valid(Dom(), nextId)
    }

    /** A page before the plugin's first call. */
    constructor ()
      ensures Valid() && Dom() == Empty
      ensures defaults == NoOverrides && current == None && nextId == 0 && callbacks == []
    {
      defaults := NoOverrides;
      body := [];
      children := map[];
      current := None;
      nextId := 0;
      callbacks := [];
    }

    /** `$.suiAlert.defaults = ...`: the embedding page sets the middle layer. */
    method SetDefaults(l: Layer)
      modifies this
      ensures defaults == l
      ensures body == old(body) && children == old(children) && current == old(current)
      ensures nextId == old(nextId) && callbacks == old(callbacks)
    {
      defaults := l;
    }

    /** semanticui.alert.js:121-134: find the container for `position` or append a new one to the
        body; either way it becomes `gAlertContainer`. */
    method GetOrCreateContainer(position: string)
      requires Valid()
      modifies this
      ensures Valid() && Dom() == GetOrCreate(old(Dom()), position)
      ensures current == Some(position)
      ensures defaults == old(defaults) && nextId == old(nextId) && callbacks == old(callbacks)
    {
      GetOrCreateValid(Dom(), nextId, position);
      if position !in children {
        body := body + [position];
        children := children[position := []];
      }
      current := Some(position);
    }

    /** semanticui.alert.js:171: `alertBox.appendTo(gAlertContainer)` for a box with a fresh id. */
    method AppendAlert(position: string, id: nat)
      requires Valid() && position in children && nextId <= id
      modifies this
      ensures nextId == id + 1 && Valid()
      ensures Dom() == Append(old(Dom()), position, id)
      ensures defaults == old(defaults) && current == old(current) && callbacks == old(callbacks)
    {
      AppendValid(Dom(), nextId, position, id);
      children := children[position := children[position] + [id]];
      nextId := id + 1;
    }

    /** `alertBox.remove()`: the box leaves its container, which stays in the body. */
    method DetachAlert(position: string, id: nat)
      requires Valid()
      modifies this
      ensures Valid() && Dom() == Detach(old(Dom()), position, id)
      ensures defaults == old(defaults) && current == old(current)
      ensures nextId == old(nextId) && callbacks == old(callbacks)
    {
      DetachValid(Dom(), nextId, position, id);
      if position in children {
        children := children[position := Without(children[position], id)];
      }
    }

    /**
     * `$.suiAlert(options)`: resolve the options, resolve the style, find or create
     * the container, append a new box at its end, show it (starting the countdown
     * unless sticky), and then invoke the callback.
     */
    method SuiAlert(options: Layer) returns (alert: Alert)
      requires Valid()
      modifies this
      ensures Valid() && fresh(alert)
      ensures var o := Resolve(old(defaults), options);
        && alert.page == this && alert.id == old(nextId) && alert.position == o.position
        && alert.style == ResolveStyle(o.theme, o.alertType)
        && alert.sticky == o.sticky && alert.autoHideDelay == o.autoHideDelay
        && alert.hasProgressBar == (!o.sticky && o.progressBar)
        && alert.State() == Init(o.sticky, o.autoHideDelay)
        && Dom() == Append(GetOrCreate(old(Dom()), o.position), o.position, old(nextId))
        && current == Some(o.position)
        && callbacks == old(callbacks) + Logged(CallbackCalls(o), Dom())
        && Holds(Dom(), o.position, old(nextId))
      ensures defaults == old(defaults) && nextId == old(nextId) + 1
    {
      var o := Resolve(defaults, options);
      var style := ResolveStyle(o.theme, o.alertType);
      GetOrCreateContainer(o.position);
      var id := nextId;
      AppendAlert(o.position, id);
      alert := new Alert.Show(this, id, o, style);
      callbacks := callbacks + Logged(CallbackCalls(o), Dom());
    }
  }

  class Alert {
    const page: Page
    const id: nat
    const position: string
    const style: Style
    const sticky: bool
    const hasProgressBar: bool
    const autoHideDelay: nat
    var pending: map<nat, nat>
    var hideTimer: nat
    var nextHandle: nat
    var barFull: bool
    var phase: Phase

    /** The box's lifecycle state, as a value. */
    function State(): AlertState
      reads this
    {
      AlertState(sticky, autoHideDelay, pending, hideTimer, nextHandle, barFull, phase)
    }

    ghost predicate Valid()
      reads this
    {
      WellFormed(State())
    }

    /** semanticui.alert.js:166-192: build the box (with a progress bar only when not sticky and
        asked for), fade it in and, unless sticky, start the countdown. */
    constructor Show(page: Page, id: nat, o: Options, style: Style)
      ensures Valid() && State() == Init(o.sticky, o.autoHideDelay)
      ensures this.page == page && this.id == id && this.position == o.position
      ensures this.style == style && sticky == o.sticky && autoHideDelay == o.autoHideDelay
      ensures hasProgressBar == (!o.sticky && o.progressBar)
    {
      this.page := page;
      this.id := id;
      position := o.position;
      this.style := style;
      sticky := o.sticky;
      hasProgressBar := o.sticky == false && o.progressBar == true;
      autoHideDelay := o.autoHideDelay;
      pending := map[];
      hideTimer := 0;
      nextHandle := 1;
      barFull := true;
      phase := Visible;
      new;
      if sticky == false {
        phase := Counting;
        HideWithDelay();
      }
      InitWellFormed(o.sticky, o.autoHideDelay);
    }

    /** `uiAlertHideWithDelay`: deplete the bar and overwrite `hideTimer` with a new
        timer, leaving any earlier timer pending. */
    method HideWithDelay()
      modifies this
      ensures State() == Lifecycle.HideWithDelay(old(State()))
    {
      barFull := false;
      pending := pending[nextHandle := TimerDelay(autoHideDelay)];
      hideTimer := nextHandle;
      nextHandle := nextHandle + 1;
    }

    /** `uiAlertPause`: `clearTimeout(hideTimer)` and reset the bar to full. */
    method Pause()
      modifies this
      ensures State() == Lifecycle.Pause(old(State()))
    {
      pending := pending - {hideTimer};
      barFull := true;
    }

    method MouseEnter()
      requires Valid()
      modifies this
      ensures Valid() && State() == Step(old(State()), Event.MouseEnter)
    {
      StepWellFormed(State(), Event.MouseEnter);
      if !sticky && phase != Removed {
        var was := phase;
        Pause();
        if was == Counting {
          phase := Paused;
        }
      }
    }

    method MouseLeave()
      requires Valid()
      modifies this
      ensures Valid() && State() == Step(old(State()), Event.MouseLeave)
    {
      StepWellFormed(State(), Event.MouseLeave);
      if !sticky && phase != Removed {
        var was := phase;
        HideWithDelay();
        if was == Paused {
          phase := Counting;
        }
      }
    }

    /** Time passes for every pending timer. */
    method Elapse(ms: nat)
      requires Valid()
      modifies this
      ensures Valid() && State() == Step(old(State()), Event.Elapse(ms))
    {
      StepWellFormed(State(), Event.Elapse(ms));
      pending := map h | h in pending :: Countdown(pending[h], ms);
    }

    /** semanticui.alert.js:217-226: a due timer starts the fade-out (a no-op once removed). */
    method TimerExpire(handle: nat)
      requires Valid()
      modifies this
      ensures Valid() && State() == Step(old(State()), Event.TimerExpire(handle))
    {
      StepWellFormed(State(), Event.TimerExpire(handle));
      if handle in pending && pending[handle] == 0 {
        pending := pending - {handle};
        if phase != Removed {
          phase := Disappearing;
        }
      }
    }

    /** semanticui.alert.js:261-270: the close icon starts the fade-out; `hideTimer` is not cleared. */
    method CloseClick()
      requires Valid()
      modifies this
      ensures Valid() && State() == Step(old(State()), Event.CloseClick)
    {
      StepWellFormed(State(), Event.CloseClick);
      if phase != Removed {
        phase := Disappearing;
      }
    }

    /** The end of the 300 ms fade-out: `alertBox.remove()` detaches the box from its
        container. */
    method FadeDone()
      requires Valid() && page.Valid()
      modifies this, page
      ensures Valid() && State() == Step(old(State()), Event.FadeDone)
      ensures page.Valid()
      ensures page.Dom() == if old(phase) == Disappearing
        then Detach(old(page.Dom()), position, id) else old(page.Dom())
      ensures old(phase) == Disappearing && position in page.children ==>
        id !in page.children[position]
      ensures page.defaults == old(page.defaults) && page.current == old(page.current)
      ensures page.nextId == old(page.nextId) && page.callbacks == old(page.callbacks)
    {
      StepWellFormed(State(), Event.FadeDone);
      if phase == Disappearing {
        phase := Removed;
        page.DetachAlert(position, id);
      }
    }
  }

  /** Two calls for `bottom-left` on a fresh page share one container, in call order. */
  method ScenarioSamePosition()
  {
    var page := new Page();
    var left := NoOverrides.(position := Some("bottom-left"));
    var a1 := page.SuiAlert(left);
    assert page.Dom() == Append(GetOrCreate(Empty, "bottom-left"), "bottom-left", 0);
    var a2 := page.SuiAlert(left);
    TwoAlertsOnePosition("bottom-left");
    assert page.body == ["bottom-left"];
    assert page.children["bottom-left"] == [a1.id, a2.id];
  }

  /** A sticky call that asks for a progress bar gets none and no countdown; hover does
      nothing, and only the close icon removes it. */
  method ScenarioSticky()
  {
    var page := new Page();
    var stickyBar := NoOverrides.(sticky := Some(true), progressBar := Some(true));
    var a := page.SuiAlert(stickyBar);
    assert !a.hasProgressBar && a.pending == map[] && a.phase == Visible;
    a.MouseLeave();
    a.Elapse(5000);
    assert a.phase == Visible;
    a.CloseClick();
    a.FadeDone();
    assert a.phase == Removed;
    assert page.children["top-center"] == [];
  }
}
