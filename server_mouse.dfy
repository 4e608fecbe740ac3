/**
 * The mouse command handler of the server (server/dispatchers/mouse.py). It
 * drives a pynput mouse controller and keeps, per instance, a scroll
 * accumulator that is never reset: distances below one wheel click are
 * carried over to the next scroll command.
 */
module ServerMouse {
  import opened Wrappers
  import opened Numbers

  /** A call received by the pynput mouse controller. */
  datatype MouseCall =
    | PressCall(button: string)
    | ReleaseCall(button: string)
    | ScrollCall(dx: int, dy: int)
    | MoveCall(dx: int, dy: int)

  /** `Handler.SCROLL_THRESHOLD`. */
  const SCROLL_THRESHOLD: real := 10.0

  /** The button used when a command names none. */
  const DEFAULT_BUTTON: string := "left"

  /** `int(a // 10)`: the clicks owed for an accumulated distance, by floor division. */
  function Clicks(a: real): int
  {
    (a / SCROLL_THRESHOLD).Floor
  }

  /** The accumulator left after emitting the clicks owed for `a`. */
  function Rest(a: real): real
  {
    a - Clicks(a) as real * SCROLL_THRESHOLD
  }

  /**
   * One axis of `scroll` loses no distance, and what it keeps lies in
   * [0, 10), also when the accumulated distance is negative.
   */
  lemma RestBounds(a: real)
    ensures a == Rest(a) + Clicks(a) as real * SCROLL_THRESHOLD
    ensures 0.0 <= Rest(a) < SCROLL_THRESHOLD
  {
    var q := a / SCROLL_THRESHOLD;
    assert q.Floor as real <= q < q.Floor as real + 1.0;
    assert a == q * SCROLL_THRESHOLD;
  }

  /** `Button[name]`: the pynput button named, or KeyError. */
  function ButtonFor(buttons: set<string>, name: Option<string>): (r: Result<string>)
    ensures name.None? ==> r == (if DEFAULT_BUTTON in buttons then Ok(DEFAULT_BUTTON) else Err("KeyError"))
    ensures name.Some? ==> r == (if name.value in buttons then Ok(name.value) else Err("KeyError"))
  {
    var n := if name.Some? then name.value else DEFAULT_BUTTON;
    if n in buttons then Ok(n) else Err("KeyError")
  }

  class Handler {
    /** The members of `pynput.mouse.Button`. */
    const buttons: set<string>
    var ax: real
    var ay: real
    /** What the controller `self.d` has received. */
    var calls: seq<MouseCall>

    constructor (buttons: set<string>)
      ensures this.buttons == buttons
      ensures ax == 0.0 && ay == 0.0 && calls == []
    {
      this.buttons := buttons;
      ax, ay := 0.0, 0.0;
      calls := [];
    }

    /** `down(button='left')`: presses the named button; an unknown name raises KeyError and presses nothing. */
    method Down(button: Option<string>) returns (r: Result<()>)
      modifies this`calls
      ensures r.Ok? <==> ButtonFor(buttons, button).Ok?
      ensures calls == old(calls) + (if r.Ok? then [PressCall(ButtonFor(buttons, button).value)] else [])
    {
      var b := ButtonFor(buttons, button);
      if b.Err? {
        return Err(b.error);
      }
      calls := calls + [PressCall(b.value)];
      r := Ok(());
    }

    /** `up(button='left')`: releases the named button; an unknown name raises KeyError and releases nothing. */
    method Up(button: Option<string>) returns (r: Result<()>)
      modifies this`calls
      ensures r.Ok? <==> ButtonFor(buttons, button).Ok?
      ensures calls == old(calls) + (if r.Ok? then [ReleaseCall(ButtonFor(buttons, button).value)] else [])
    {
      var b := ButtonFor(buttons, button);
      if b.Err? {
        return Err(b.error);
      }
      calls := calls + [ReleaseCall(b.value)];
      r := Ok(());
    }

    /**
     * `scroll(dx, dy)`: adds the deltas to the accumulators, takes the whole
     * clicks out of each, and calls the controller's scroll once when there
     * is at least one click on either axis.
     */
    method Scroll(dx: real, dy: real)
      modifies this`ax, this`ay, this`calls
      ensures old(ax) + dx == ax + Clicks(old(ax) + dx) as real * SCROLL_THRESHOLD
      ensures old(ay) + dy == ay + Clicks(old(ay) + dy) as real * SCROLL_THRESHOLD
      ensures 0.0 <= ax < SCROLL_THRESHOLD && 0.0 <= ay < SCROLL_THRESHOLD
      ensures var xs, ys := Clicks(old(ax) + dx), Clicks(old(ay) + dy);
        calls == old(calls) + (if xs != 0 || ys != 0 then [ScrollCall(xs, ys)] else [])
    {
      ax := ax + dx;
      ay := ay + dy;

      var xscroll := Clicks(ax);
      RestBounds(ax);
      ax := ax - xscroll as real * SCROLL_THRESHOLD;

      var yscroll := Clicks(ay);
      RestBounds(ay);
      ay := ay - yscroll as real * SCROLL_THRESHOLD;

      if xscroll != 0 || yscroll != 0 {
        calls := calls + [ScrollCall(xscroll, yscroll)];
      }
    }

    /** `move(dx, dy)`: moves by the deltas truncated toward zero; the accumulators are untouched. */
    method Move(dx: real, dy: real)
      modifies this`calls
      ensures calls == old(calls) + [MoveCall(Trunc(dx), Trunc(dy))]
    {
      calls := calls + [MoveCall(Trunc(dx), Trunc(dy))];
    }
  }
}
