/**
 * html/js/lib/view.js: the touchpad view. A touch that ends having moved
 * less than the click threshold requests a click (right for two fingers,
 * left otherwise), sent after a short delay; moving while a click is still
 * pending turns the gesture into drag-and-drop, which holds the left
 * button until the next short touch ends. One moving finger moves the
 * pointer, two scroll. The length of a movement (`Math.sqrt`) and the
 * accelerated pointer movement (`_calculateMovement`, trigonometry and
 * powers) are parameters; the delayed timer is a separate step, `Fire`.
 */
module View {
  import opened Wrappers
  import opened Util
  import BrowserConfiguration

  /** `CLICK_THRESHOLD` */
  const ClickThreshold: real := 10.0

  /** The events the view element dispatches. */
  datatype ViewEvent = ButtonDown(button: string) | ButtonUp(button: string) | MoveBy(dx: real, dy: real) | ScrollBy(dx: real, dy: real)

  /**
   * The view's fields: the touches of a pending click (`_click`), the
   * drag flag (`_dnd`), the accumulated movement (None while undefined,
   * which compares as NaN), the current touches (None once deleted), and
   * the events dispatched so far.
   */
  datatype ViewState = ViewState(click: Option<seq<Clone>>, dnd: bool, movement: Option<real>, current: Option<seq<Clone>>, events: seq<ViewEvent>)

  /** What the view takes from outside: vector length, pointer acceleration and the `view.naturalScroll` setting. */
  datatype Env = Env(norm: (real, real) -> real, accelerate: (real, real) -> (real, real), naturalScroll: Option<string>)

  /** `cloneTouches` of copies already made keeps them as they are. */
  function Recloned(touches: Option<seq<Clone>>): seq<Clone>
  {
    if touches.None? then [] else touches.value
  }

  /** The button a click of these touches sends. */
  function ClickButton(touches: seq<Clone>): string
  {
    if |touches| == 2 then "right" else "left"
  }

  /** `click(button)`: nothing while a click is pending; otherwise a click of the current touches is scheduled. */
  function Clicked(v: ViewState): (r: ViewState)
    ensures v.click.Some? ==> r == v
    ensures v.click.None? ==> r == v.(click := Some(Recloned(v.current)))
  {
    if v.click.Some? then v else v.(click := Some(Recloned(v.current)))
  }

  /** The scheduled click goes off: button down, button up, and nothing pending. */
  function Fired(v: ViewState): (r: ViewState)
    requires v.click.Some?
    ensures r.click.None? && r.dnd == v.dnd && r.movement == v.movement && r.current == v.current
    ensures var b := ClickButton(v.click.value); r.events == v.events + [ButtonDown(b), ButtonUp(b)]
  {
    var b := ClickButton(v.click.value);
    v.(click := None, events := v.events + [ButtonDown(b), ButtonUp(b)])
  }

  /** `dndStart()` */
  function DragStarted(v: ViewState): ViewState
  {
    v.(dnd := true, events := v.events + [ButtonDown("left")])
  }

  /** `dndEnd()` */
  function DragEnded(v: ViewState): ViewState
  {
    v.(dnd := false, events := v.events + [ButtonUp("left")])
  }

  /**
   * `onTouchStart(event)`: the touches become current and the movement
   * starts again, short of the click threshold; nothing is sent, and a
   * pending click or drag stays.
   */
  function TouchStart(v: ViewState, touches: seq<Touch>): (r: ViewState)
    ensures r.current.Some? && |r.current.value| == |touches| && Short(r)
    ensures r.click == v.click && r.dnd == v.dnd && r.events == v.events
  {
    v.(current := Some(Cloned(Some(touches))), movement := Some(0.0))
  }

  /** Whether the movement so far stays under the click threshold; `undefined < 10` is false. */
  predicate Short(v: ViewState)
  {
    v.movement.Some? && v.movement.value < ClickThreshold
  }

  /**
   * `onTouchEnd(event)`; false where it raises TypeError (no current
   * touches to count). Lifting after a short touch ends drag-and-drop, or
   * else asks for a click of the current touches (right for two, left
   * otherwise) unless one is pending; after a long touch nothing is sent.
   * Either way the current touches are forgotten.
   */
  function TouchEnd(v: ViewState): (r: (ViewState, bool))
    ensures r.1 <==> !(Short(v) && !v.dnd && v.current.None?)
    ensures !r.1 ==> r.0 == v
    ensures r.1 ==> r.0.current.None? && r.0.movement == v.movement
    ensures Short(v) && v.dnd ==>
      !r.0.dnd && r.0.click == v.click && r.0.events == v.events + [ButtonUp("left")]
    ensures Short(v) && !v.dnd && v.current.Some? ==>
      r.0.dnd == v.dnd && r.0.events == v.events && r.0.click == (if v.click.None? then Some(v.current.value) else v.click)
    ensures !Short(v) ==>
      r.0.click == v.click && r.0.dnd == v.dnd && r.0.events == v.events
  {
    if Short(v) && !v.dnd && v.current.None? then (v, false)
    else
      var v1 := if !Short(v) then v else if v.dnd then DragEnded(v) else Clicked(v);
      (v1.(current := None), true)
  }

  /**
   * `_calculateScroll`: both deltas reversed under natural scrolling,
   * which is the default: with nothing stored the deltas are reversed,
   * and only a stored `false` keeps them as they are.
   */
  function Scroll(env: Env, dx: real, dy: real): (r: (real, real))
    ensures env.naturalScroll != Some("false") ==> r == (-dx, -dy)
    ensures env.naturalScroll == Some("false") ==> r == (dx, dy)
  {
    var natural := BrowserConfiguration.Get(_ => None, env.naturalScroll, BrowserConfiguration.Bool(true));
    if natural == BrowserConfiguration.Bool(true) then (-dx, -dy) else (dx, dy)
  }

  /**
   * The part of `onTouchMove` after the pending click is dealt with;
   * false where it raises TypeError, and then nothing changes. Tracking
   * never touches the pending click or the drag, and sends at most one
   * event.
   */
  function Track(env: Env, v: ViewState, changed: Option<seq<Touch>>): (r: (ViewState, bool))
    ensures !r.1 ==> r.0 == v
    ensures r.0.click == v.click && r.0.dnd == v.dnd
    ensures v.events <= r.0.events && |r.0.events| <= |v.events| + 1
  {
    if changed.None? then (v, true)
    else if v.current.None? then (v, false)
    else if |changed.value| != |v.current.value| then (v, true)
    else if |v.current.value| == 0 then (v, false)
    else
      var old_ := v.current.value[0];
      match Identified(changed.value, old_.identifier)
      case None => (v, false)
      case Some(new_) =>
        var dx := new_.screenX - old_.screenX;
        var dy := new_.screenY - old_.screenY;
        var moved := v.(movement := if v.movement.Some? then Some(v.movement.value + env.norm(dx, dy)) else None,
                        current := Some(Cloned(changed)));
        if |changed.value| == 1 then
          var (mx, my) := env.accelerate(dx, dy);
          (moved.(events := moved.events + [MoveBy(mx, my)]), true)
        else if |changed.value| == 2 then
          var (sx, sy) := Scroll(env, dx, dy);
          (moved.(events := moved.events + [ScrollBy(sx, sy)]), true)
        else (moved, true)
  }

  /**
   * `onTouchMove(event)`: a pending click becomes drag-and-drop, then the
   * touches are tracked. Afterwards no click is pending; drag-and-drop is
   * on when it was or a click was pending; at most two events are sent.
   */
  function TouchMove(env: Env, v: ViewState, changed: Option<seq<Touch>>): (r: (ViewState, bool))
    ensures r.0.click.None?
    ensures r.0.dnd == (v.dnd || v.click.Some?)
    ensures v.events <= r.0.events && |r.0.events| <= |v.events| + 2
  {
    var v1 := if v.click.Some? then DragStarted(v.(click := None)) else v;
    Track(env, v1, changed)
  }

  /**
   * Moving while a click is pending cancels it and starts drag-and-drop
   * with a left button press before anything else is sent.
   */
  lemma MovePendingStartsDrag(env: Env, v: ViewState, changed: Option<seq<Touch>>)
    requires v.click.Some?
    ensures var (r, ok) := TouchMove(env, v, changed);
      r.click.None? && r.dnd && |r.events| >= |v.events| + 1 &&
      r.events[..|v.events| + 1] == v.events + [ButtonDown("left")]
  {
    var v1 := DragStarted(v.(click := None));
    var (r, ok) := Track(env, v1, changed);
    assert r.events[..|v1.events|] == v1.events;
  }

  /**
   * Touches are tracked only when as many change as are current: then one
   * finger moves the pointer and two scroll, the movement grows by the
   * distance the first finger went, and the changed touches become
   * current.
   */
  lemma TrackCases(env: Env, v: ViewState, changed: seq<Touch>)
    requires v.current.Some?
    ensures var (r, ok) := Track(env, v, Some(changed));
      (|changed| != |v.current.value| ==> ok && r == v) &&
      (|changed| == |v.current.value| > 0 && Identified(changed, v.current.value[0].identifier).Some? ==>
        var o := v.current.value[0];
        var n := Identified(changed, o.identifier).value;
        var (dx, dy) := (n.screenX - o.screenX, n.screenY - o.screenY);
        ok && r.current == Some(Cloned(Some(changed))) && r.click == v.click && r.dnd == v.dnd &&
        (v.movement.Some? ==> r.movement == Some(v.movement.value + env.norm(dx, dy))) &&
        (|changed| == 1 ==> r.events == v.events + [MoveBy(env.accelerate(dx, dy).0, env.accelerate(dx, dy).1)]) &&
        (|changed| == 2 ==> r.events == v.events + [ScrollBy(Scroll(env, dx, dy).0, Scroll(env, dx, dy).1)]) &&
        (|changed| > 2 ==> r.events == v.events))
  {
    if |changed| == |v.current.value| > 0 && Identified(changed, v.current.value[0].identifier).Some? {
      TrackMoved(env, v, changed);
      TrackEvents(env, v, changed);
    }
  }

  /** Tracking the current touches: they become current and the movement grows. */
  lemma {:induction false} TrackMoved(env: Env, v: ViewState, changed: seq<Touch>)
    requires v.current.Some? && |changed| == |v.current.value| > 0
    requires Identified(changed, v.current.value[0].identifier).Some?
    ensures var (r, ok) := Track(env, v, Some(changed));
      var o := v.current.value[0];
      var n := Identified(changed, o.identifier).value;
      ok && r.current == Some(Cloned(Some(changed))) && r.click == v.click && r.dnd == v.dnd &&
      (v.movement.Some? ==> r.movement == Some(v.movement.value + env.norm(n.screenX - o.screenX, n.screenY - o.screenY)))
  {
  }

  /** Tracking the current touches: one finger moves the pointer, two scroll, more do nothing. */
  lemma {:induction false} TrackEvents(env: Env, v: ViewState, changed: seq<Touch>)
    requires v.current.Some? && |changed| == |v.current.value| > 0
    requires Identified(changed, v.current.value[0].identifier).Some?
    ensures var r := Track(env, v, Some(changed)).0;
      var o := v.current.value[0];
      var n := Identified(changed, o.identifier).value;
      var (dx, dy) := (n.screenX - o.screenX, n.screenY - o.screenY);
      (|changed| == 1 ==> r.events == v.events + [MoveBy(env.accelerate(dx, dy).0, env.accelerate(dx, dy).1)]) &&
      (|changed| == 2 ==> r.events == v.events + [ScrollBy(Scroll(env, dx, dy).0, Scroll(env, dx, dy).1)]) &&
      (|changed| > 2 ==> r.events == v.events)
  {
  }

  /** A tap with one finger clicks the left button, with two the right one. */
  lemma TapClicks(v: ViewState, touches: seq<Touch>)
    requires v.click.None? && !v.dnd
    ensures var (ended, ok) := TouchEnd(TouchStart(v, touches));
      ok && ended.click.Some? &&
      Fired(ended).events == v.events + [ButtonDown(ClickButton(Cloned(Some(touches)))), ButtonUp(ClickButton(Cloned(Some(touches))))] &&
      ClickButton(Cloned(Some(touches))) == (if |touches| == 2 then "right" else "left")
  {
  }

  /**
   * Tap, then touch again and move before the click goes off: the left
   * button is pressed for drag-and-drop, and released when a later short
   * touch ends.
   */
  lemma TapAndDrag(env: Env, v: ViewState, tap: seq<Touch>, hold: Touch, moved: Touch, lift: Touch)
    requires v.click.None? && !v.dnd
    requires moved.identifier == hold.identifier
    requires env.norm(moved.screenX - hold.screenX, moved.screenY - hold.screenY) >= ClickThreshold
    ensures var (tapped, _) := TouchEnd(TouchStart(v, tap));
      var (dragging, ok1) := TouchMove(env, TouchStart(tapped, [hold]), Some([moved]));
      var (dragged, ok2) := TouchEnd(dragging);
      var (released, ok3) := TouchEnd(TouchStart(dragged, [lift]));
      ok1 && ok2 && ok3 && dragging.dnd && dragged.dnd && !released.dnd && released.click.None? &&
      dragging.events[|v.events|] == ButtonDown("left") &&
      released.events[|released.events| - 1] == ButtonUp("left")
  {
    var (tapped, _) := TouchEnd(TouchStart(v, tap));
    var held := TouchStart(tapped, [hold]);
    assert Identified([moved], hold.identifier) == Some(moved);
    var (dragging, ok1) := TouchMove(env, held, Some([moved]));
    MovePendingStartsDrag(env, held, Some([moved]));
    assert dragging.events[..|v.events| + 1][|v.events|] == ButtonDown("left");
  }

  /** The touchpad element's view. */
  class Touchview {
    var click: Option<seq<Clone>>
    var dnd: bool
    var movement: Option<real>
    var current: Option<seq<Clone>>
    var events: seq<ViewEvent>

    function State(): ViewState
      reads this
    {
      ViewState(click, dnd, movement, current, events)
    }

    /** `new Touchview(parentEl)`: nothing pending, no drag, nothing measured yet. */
    constructor()
      ensures State() == ViewState(None, false, None, None, [])
    {
      click := None;
      dnd := false;
      movement := None;
      current := None;
      events := [];
    }

    /** `clickInProgress()` */
    function ClickInProgress(): (r: bool)
      reads this
      ensures r <==> click.Some?
    {
      click.Some?
    }

    /** `click(button)`; the button sent is decided when the timer goes off. */
    method Click(button: string)
      modifies this
      ensures State() == Clicked(old(State()))
    {
      if ClickInProgress() {
        return;
      }
      var touches := Recloned(current);
      click := Some(touches);
    }

    /** The timer set by `click` goes off. */
    method Fire()
      requires click.Some?
      modifies this
      ensures State() == Fired(old(State()))
    {
      var touches := click.value;
      var button := if |touches| == 2 then "right" else "left";
      events := events + [ButtonDown(button)];
      events := events + [ButtonUp(button)];
      click := None;
    }

    /** `clickCancel()`: true exactly when a click was pending, which no longer is. */
    method ClickCancel() returns (cancelled: bool)
      modifies this
      ensures cancelled == old(click).Some?
      ensures State() == old(State()).(click := None)
    {
      if click.Some? {
        click := None;
        return true;
      }
      return false;
    }

    /** `dndStart()` */
    method DndStart()
      modifies this
      ensures State() == DragStarted(old(State()))
    {
      dnd := true;
      events := events + [ButtonDown("left")];
    }

    /** `dndEnd()` */
    method DndEnd()
      modifies this
      ensures State() == DragEnded(old(State()))
    {
      dnd := false;
      events := events + [ButtonUp("left")];
    }

    /** `onTouchStart(event)`: the touches become current and the movement starts at 0. */
    method OnTouchStart(touches: seq<Touch>)
      modifies this
      ensures State() == TouchStart(old(State()), touches)
    {
      var cloned := CloneTouches(Some(touches));
      current := Some(cloned);
      movement := Some(0.0);
    }

    /** `onTouchEnd(event)`; false where it raises TypeError. */
    method OnTouchEnd() returns (ok: bool)
      modifies this
      ensures (State(), ok) == TouchEnd(old(State()))
    {
      if movement.Some? && movement.value < ClickThreshold {
        if dnd {
          DndEnd();
        } else {
          if current.None? {
            return false;
          }
          Click(if |current.value| == 2 then "right" else "left");
        }
      }
      current := None;
      ok := true;
    }

    /** `onTouchMove(event)`; false where it raises TypeError. */
    method OnTouchMove(env: Env, changed: Option<seq<Touch>>) returns (ok: bool)
      modifies this
      ensures (State(), ok) == TouchMove(env, old(State()), changed)
    {
      if ClickInProgress() {
        var _ := ClickCancel();
        DndStart();
      }
      if changed.None? {
        return true;
      }
      if current.None? {
        return false;
      }
      if |changed.value| != |current.value| {
        return true;
      }
      if |current.value| == 0 {
        return false;
      }
      var oldTouch := current.value[0];
      var newTouch := Identified(changed.value, oldTouch.identifier);
      if newTouch.None? {
        return false;
      }
      var dx := newTouch.value.screenX - oldTouch.screenX;
      var dy := newTouch.value.screenY - oldTouch.screenY;
      if movement.Some? {
        movement := Some(movement.value + env.norm(dx, dy));
      }
      var cloned := CloneTouches(changed);
      current := Some(cloned);
      if |changed.value| == 1 {
        var (mx, my) := env.accelerate(dx, dy);
        events := events + [MoveBy(mx, my)];
      } else if |changed.value| == 2 {
        var (sx, sy) := Scroll(env, dx, dy);
        events := events + [ScrollBy(sx, sy)];
      }
      ok := true;
    }
  }
}
