/**
 * The state-passing X driver (event/xorg.py). The caller owns the mouse
 * state, a two-element list [horizontal, vertical] of accumulated scroll
 * distance: `mouse_scroll` updates it in place and returns it, while the
 * button and motion calls hand back a fresh [0, 0].
 */
module XorgEvent {
  import opened Wrappers
  import opened XInput

  /** The bounds of a C `short`, the range of one pointer movement. */
  const SHRT_MAX: int := 32767
  const SHRT_MIN: int := -SHRT_MAX - 1

  /** `max(min(v, SHRT_MAX), SHRT_MIN)`. */
  function Clamp(v: int): (r: int)
    ensures SHRT_MIN <= r <= SHRT_MAX
    ensures SHRT_MIN <= v <= SHRT_MAX ==> r == v
    ensures v > SHRT_MAX ==> r == SHRT_MAX
    ensures v < SHRT_MIN ==> r == SHRT_MIN
  {
    if v > SHRT_MAX then SHRT_MAX else if v < SHRT_MIN then SHRT_MIN else v
  }

  /** A fresh `[0, 0]` state. */
  method NewState() returns (r: array<int>)
    ensures fresh(r) && r[..] == [0, 0]
  {
    r := new int[2];
    r[0], r[1] := 0, 0;
  }

  /**
   * `key_down(state, name, keysym, symbol)`: the symbol is resolved with the
   * given keysym as fallback, then its keycode is pressed. The function
   * returns None, so it gives no new keyboard state; an unknown symbol
   * raises ValueError before anything is injected.
   */
  method KeyDown(d: Display, tables: KeysymTables, keysym: Option<int>, symbol: string) returns (r: Result<()>)
    modifies d
    ensures r.Ok? <==> StringToKeysym(tables, symbol, keysym).Ok?
    ensures d.log == old(d.log) + (if r.Ok? then [KeyPress(d.keycodeOf(StringToKeysym(tables, symbol, keysym).value))] else [])
  {
    var k := StringToKeysym(tables, symbol, keysym);
    if k.Err? {
      return Err(k.error);
    }
    d.Inject(KeyPress(d.keycodeOf(k.value)));
    r := Ok(());
  }

  /** `key_up`: as KeyDown, releasing the keycode. */
  method KeyUp(d: Display, tables: KeysymTables, keysym: Option<int>, symbol: string) returns (r: Result<()>)
    modifies d
    ensures r.Ok? <==> StringToKeysym(tables, symbol, keysym).Ok?
    ensures d.log == old(d.log) + (if r.Ok? then [KeyRelease(d.keycodeOf(StringToKeysym(tables, symbol, keysym).value))] else [])
  {
    var k := StringToKeysym(tables, symbol, keysym);
    if k.Err? {
      return Err(k.error);
    }
    d.Inject(KeyRelease(d.keycodeOf(k.value)));
    r := Ok(());
  }

  /** `mouse_down`: presses the button and discards the accumulated scroll. */
  method MouseDown(d: Display, state: array<int>, button: int) returns (r: array<int>)
    modifies d
    ensures fresh(r) && r[..] == [0, 0]
    ensures d.log == old(d.log) + [ButtonPress(button)]
  {
    d.Inject(ButtonPress(button));
    r := NewState();
  }

  /** `mouse_up`: releases the button and discards the accumulated scroll. */
  method MouseUp(d: Display, state: array<int>, button: int) returns (r: array<int>)
    modifies d
    ensures fresh(r) && r[..] == [0, 0]
    ensures d.log == old(d.log) + [ButtonRelease(button)]
  {
    d.Inject(ButtonRelease(button));
    r := NewState();
  }

  /**
   * `mouse_scroll`: adds the deltas to the state in place, emits the
   * vertical then the horizontal wheel clicks the accumulators owe, keeps
   * the remainders and returns the same list.
   */
  method MouseScroll(d: Display, state: array<int>, dx: int, dy: int) returns (r: array<int>)
    requires state.Length == 2
    modifies state, d
    ensures r == state
    ensures state[..] == [Remainder(old(state[0]) + dx), Remainder(old(state[1]) + dy)]
    ensures d.log == old(d.log) + ScrollEvents(old(state[0]) + dx, old(state[1]) + dy)
  {
    state[0] := state[0] + dx;
    state[1] := state[1] + dy;

    var vscroll := state[1] / SCROLL_THRESHOLD;
    EmitWheel(d, vscroll, BUTTON5, BUTTON4);
    state[1] := state[1] - vscroll * SCROLL_THRESHOLD;

    var hscroll := state[0] / SCROLL_THRESHOLD;
    EmitWheel(d, hscroll, BUTTON7, BUTTON6);
    state[0] := state[0] - hscroll * SCROLL_THRESHOLD;

    r := state;
  }

  /** `mouse_move`: moves the pointer by the deltas clamped to a short, and discards the accumulated scroll. */
  method MouseMove(d: Display, state: array<int>, dx: int, dy: int) returns (r: array<int>)
    modifies d
    ensures fresh(r) && r[..] == [0, 0]
    ensures d.log == old(d.log) + [PointerMotion(Clamp(dx), Clamp(dy))]
  {
    d.Inject(PointerMotion(Clamp(dx), Clamp(dy)));
    r := NewState();
  }
}
