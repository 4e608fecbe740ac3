/**
 * The X driver behind the platform-neutral event API
 * (_platform/event/_linux.py). Its scroll accumulator is one module-level
 * list [horizontal, vertical]: `mouse_scroll` updates it in place, and the
 * button and motion calls cancel scrolling by rebinding it to a new [0, 0].
 */
module LinuxEvent {
  import opened Wrappers
  import opened XInput

  /** The module's globals: the display and the `scroll` list. */
  class Driver {
    const display: Display
    const tables: KeysymTables
    var scroll: array<int>

    ghost predicate Valid()
      reads this
    {
      scroll.Length == 2
    }

    /** Module import: `scroll = [0, 0]`. */
    constructor (display: Display, tables: KeysymTables)
      ensures Valid() && fresh(scroll) && scroll[..] == [0, 0]
      ensures this.display == display && this.tables == tables
    {
      this.display := display;
      this.tables := tables;
      var s := new int[2];
      s[0], s[1] := 0, 0;
      scroll := s;
    }

    /** `mouse_scroll_cancel`: the global is rebound to a new [0, 0]. */
    method MouseScrollCancel()
      modifies this
      ensures Valid() && fresh(scroll) && scroll[..] == [0, 0]
    {
      var s := new int[2];
      s[0], s[1] := 0, 0;
      scroll := s;
    }

    /** `key_down(keysym, symbol)`: presses the resolved key; the scroll accumulator is not touched. */
    method KeyDown(keysym: Option<int>, symbol: string) returns (r: Result<()>)
      requires Valid()
      modifies display
      ensures r.Ok? <==> StringToKeysym(tables, symbol, keysym).Ok?
      ensures display.log == old(display.log)
        + (if r.Ok? then [KeyPress(display.keycodeOf(StringToKeysym(tables, symbol, keysym).value))] else [])
      ensures unchanged(this) && unchanged(scroll)
    {
      var k := StringToKeysym(tables, symbol, keysym);
      if k.Err? {
        return Err(k.error);
      }
      display.Inject(KeyPress(display.keycodeOf(k.value)));
      r := Ok(());
    }

    /** `key_up(keysym, symbol)`: releases the resolved key; the scroll accumulator is not touched. */
    method KeyUp(keysym: Option<int>, symbol: string) returns (r: Result<()>)
      requires Valid()
      modifies display
      ensures r.Ok? <==> StringToKeysym(tables, symbol, keysym).Ok?
      ensures display.log == old(display.log)
        + (if r.Ok? then [KeyRelease(display.keycodeOf(StringToKeysym(tables, symbol, keysym).value))] else [])
      ensures unchanged(this) && unchanged(scroll)
    {
      var k := StringToKeysym(tables, symbol, keysym);
      if k.Err? {
        return Err(k.error);
      }
      display.Inject(KeyRelease(display.keycodeOf(k.value)));
      r := Ok(());
    }

    /** `mouse_down(button)`: cancels scrolling, then presses the button. */
    method MouseDown(button: int)
      modifies this, display
      ensures Valid() && fresh(scroll) && scroll[..] == [0, 0]
      ensures display.log == old(display.log) + [ButtonPress(button)]
    {
      MouseScrollCancel();
      display.Inject(ButtonPress(button));
    }

    /** `mouse_up(button)`: cancels scrolling, then releases the button. */
    method MouseUp(button: int)
      modifies this, display
      ensures Valid() && fresh(scroll) && scroll[..] == [0, 0]
      ensures display.log == old(display.log) + [ButtonRelease(button)]
    {
      MouseScrollCancel();
      display.Inject(ButtonRelease(button));
    }

    /**
     * `mouse_scroll(dx, dy)`: adds the deltas to the global list in place,
     * emits the vertical then the horizontal clicks owed and keeps the
     * remainders.
     */
    method MouseScroll(dx: int, dy: int)
      requires Valid()
      modifies scroll, display
      ensures Valid()
      ensures scroll[..] == [Remainder(old(scroll[0]) + dx), Remainder(old(scroll[1]) + dy)]
      ensures display.log == old(display.log) + ScrollEvents(old(scroll[0]) + dx, old(scroll[1]) + dy)
    {
      scroll[0] := scroll[0] + dx;
      scroll[1] := scroll[1] + dy;

      var vscroll := scroll[1] / SCROLL_THRESHOLD;
      EmitWheel(display, vscroll, BUTTON5, BUTTON4);
      scroll[1] := scroll[1] - vscroll * SCROLL_THRESHOLD;

      var hscroll := scroll[0] / SCROLL_THRESHOLD;
      EmitWheel(display, hscroll, BUTTON7, BUTTON6);
      scroll[0] := scroll[0] - hscroll * SCROLL_THRESHOLD;
    }

    /** `mouse_move(dx, dy)`: cancels scrolling, then moves the pointer by the deltas, unclamped. */
    method MouseMove(dx: int, dy: int)
      modifies this, display
      ensures Valid() && fresh(scroll) && scroll[..] == [0, 0]
      ensures display.log == old(display.log) + [PointerMotion(dx, dy)]
    {
      MouseScrollCancel();
      display.Inject(PointerMotion(dx, dy));
    }
  }
}
