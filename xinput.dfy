/**
 * The X server side shared by the two Linux input drivers (event/xorg.py and
 * _platform/event/_linux.py): the events they inject through XTest, the
 * wheel-click rule both apply to an accumulated scroll distance, and the
 * translation of a key symbol name into a keysym.
 */
module XInput {
  import opened Wrappers

  /** One event injected into the X server. */
  datatype XEvent =
    | ButtonPress(button: int)
    | ButtonRelease(button: int)
    | KeyPress(keycode: int)
    | KeyRelease(keycode: int)
    | PointerMotion(dx: int, dy: int)

  /** The accumulated distance that makes one wheel click. */
  const SCROLL_THRESHOLD: int := 10

  /** X.Button4 and X.Button5: wheel up and wheel down. */
  const BUTTON4: int := 4
  const BUTTON5: int := 5
  /** The horizontal wheel buttons: left and right. */
  const BUTTON6: int := 6
  const BUTTON7: int := 7

  /**
   * The X display connection. What it receives is an append-only log; the
   * server's keysym-to-keycode table is fixed for the connection.
   */
  class Display {
    var log: seq<XEvent>
    const keycodeOf: int -> int

    constructor (keycodeOf: int -> int)
      ensures log == [] && this.keycodeOf == keycodeOf
    {
      log := [];
      this.keycodeOf := keycodeOf;
    }

    /** `fake_input` (and pointer motion): the event is delivered after all earlier ones. */
    method Inject(e: XEvent)
      modifies this
      ensures log == old(log) + [e]
    {
      log := log + [e];
    }
  }

  /** `n` clicks of `button`, each a press immediately followed by its release. */
  function Clicks(button: int, n: nat): (r: seq<XEvent>)
    ensures |r| == 2 * n
    ensures forall i :: 0 <= i < |r| ==> r[i] == if i % 2 == 0 then ButtonPress(button) else ButtonRelease(button)
  {
    if n == 0 then [] else Clicks(button, n - 1) + [ButtonPress(button), ButtonRelease(button)]
  }

  /**
   * The wheel clicks for a signed click count: `forward` when positive,
   * `back` when negative; one press and release per click, none for 0.
   */
  function Wheel(clicks: int, forward: int, back: int): (r: seq<XEvent>)
    ensures |r| == 2 * (if clicks > 0 then clicks else -clicks)
    ensures var b := if clicks > 0 then forward else back;
      forall i :: 0 <= i < |r| ==> r[i] == if i % 2 == 0 then ButtonPress(b) else ButtonRelease(b)
  {
    if clicks > 0 then Clicks(forward, clicks) else Clicks(back, -clicks)
  }

  /**
   * The clicks owed for an accumulated distance on one axis: Python's floor
   * division `acc // 10` (Dafny's `/` agrees with it for a positive divisor).
   */
  function AxisClicks(acc: int): int
  {
    acc / SCROLL_THRESHOLD
  }

  /** What stays in the accumulator once its clicks are emitted: `acc - (acc // 10) * 10`. */
  function Remainder(acc: int): int
  {
    acc - AxisClicks(acc) * SCROLL_THRESHOLD
  }

  /**
   * The events for accumulators `x` (horizontal) and `y` (vertical) after the
   * deltas were added: vertical clicks on buttons 5/4 first, then horizontal
   * clicks on buttons 7/6.
   */
  function ScrollEvents(x: int, y: int): seq<XEvent>
  {
    Wheel(AxisClicks(y), BUTTON5, BUTTON4) + Wheel(AxisClicks(x), BUTTON7, BUTTON6)
  }

  /** The number of presses of `button` in `es`. */
  function Presses(es: seq<XEvent>, button: int): nat
  {
    if es == [] then 0
    else Presses(es[..|es| - 1], button) + (if es[|es| - 1] == ButtonPress(button) then 1 else 0)
  }

  /** `e` presses or releases `button`. */
  predicate OnButton(e: XEvent, button: int)
  {
    e == ButtonPress(button) || e == ButtonRelease(button)
  }

  predicate IsVertical(e: XEvent)
  {
    (e.ButtonPress? || e.ButtonRelease?) && (e.button == BUTTON4 || e.button == BUTTON5)
  }

  predicate IsHorizontal(e: XEvent)
  {
    (e.ButtonPress? || e.ButtonRelease?) && (e.button == BUTTON6 || e.button == BUTTON7)
  }

  /** `es` is a run of clicks: each press is immediately followed by the release of the same button. */
  predicate Paired(es: seq<XEvent>)
  {
    |es| % 2 == 0 &&
    forall k :: 0 <= k < |es| / 2 ==>
      es[2 * k].ButtonPress? && es[2 * k + 1] == ButtonRelease(es[2 * k].button)
  }

  /** No vertical wheel event follows a horizontal one. */
  predicate VerticalFirst(es: seq<XEvent>)
  {
    forall i, j :: 0 <= i < j < |es| && IsHorizontal(es[i]) ==> !IsVertical(es[j])
  }

  /** Emits `n` clicks of `button`, as the drivers' `for i in range(abs(v))` loops do. */
  method EmitClicks(d: Display, button: int, n: nat)
    modifies d
    ensures d.log == old(d.log) + Clicks(button, n)
  {
    var i := 0;
    while i < n
      invariant 0 <= i <= n
      invariant d.log == old(d.log) + Clicks(button, i)
    {
      d.Inject(ButtonPress(button));
      d.Inject(ButtonRelease(button));
      i := i + 1;
    }
  }

  /** Emits the wheel clicks for a signed count, choosing the button by its sign. */
  method EmitWheel(d: Display, clicks: int, forward: int, back: int)
    modifies d
    ensures d.log == old(d.log) + Wheel(clicks, forward, back)
  {
    if clicks > 0 {
      EmitClicks(d, forward, clicks);
    } else {
      EmitClicks(d, back, -clicks);
    }
  }

  lemma {:induction false} PressesAppend(a: seq<XEvent>, b: seq<XEvent>, button: int)
    ensures Presses(a + b, button) == Presses(a, button) + Presses(b, button)
    decreases |b|
  {
    if b == [] {
      assert a + b == a;
    } else {
      var b' := b[..|b| - 1];
      assert (a + b)[..|a + b| - 1] == a + b';
      PressesAppend(a, b', button);
    }
  }

  lemma {:induction false} ClicksPresses(button: int, n: nat, other: int)
    ensures Presses(Clicks(button, n), other) == if other == button then n else 0
  {
    if n > 0 {
      var pair := [ButtonPress(button), ButtonRelease(button)];
      PressesAppend(Clicks(button, n - 1), pair, other);
      ClicksPresses(button, n - 1, other);
      assert pair[..1] == [ButtonPress(button)];
      assert [ButtonPress(button)][..0] == [];
      assert Presses([ButtonPress(button)], other) == if other == button then 1 else 0;
      assert Presses(pair, other) == Presses([ButtonPress(button)], other);
    }
  }

  lemma {:induction false} ClicksShape(button: int, n: nat)
    ensures Paired(Clicks(button, n))
    ensures forall k :: 0 <= k < |Clicks(button, n)| ==> OnButton(Clicks(button, n)[k], button)
  {
    if n > 0 {
      ClicksShape(button, n - 1);
    }
  }

  /**
   * Per axis, the wheel emits only the button that matches the sign of the
   * count, and the signed press count is the count itself.
   */
  lemma WheelPresses(clicks: int, forward: int, back: int)
    requires forward != back
    ensures Presses(Wheel(clicks, forward, back), forward) - Presses(Wheel(clicks, forward, back), back) == clicks
    ensures Presses(Wheel(clicks, forward, back), forward) == 0 || Presses(Wheel(clicks, forward, back), back) == 0
  {
    if clicks > 0 {
      ClicksPresses(forward, clicks, forward);
      ClicksPresses(forward, clicks, back);
    } else {
      ClicksPresses(back, -clicks, forward);
      ClicksPresses(back, -clicks, back);
    }
  }

  /** The remainder lies in [0, 10), also for a negative accumulator. */
  lemma RemainderBounds(acc: int)
    ensures 0 <= Remainder(acc) < SCROLL_THRESHOLD
    ensures acc == Remainder(acc) + SCROLL_THRESHOLD * AxisClicks(acc)
  {
  }

  /**
   * No distance is lost: on each axis the old accumulator plus the delta is
   * the new accumulator plus ten times the signed number of clicks emitted,
   * and only one direction is clicked per axis.
   */
  lemma {:induction false} ScrollConserves(ax: int, ay: int, dx: int, dy: int)
    ensures var es := ScrollEvents(ax + dx, ay + dy);
      && ay + dy == Remainder(ay + dy) + SCROLL_THRESHOLD * (Presses(es, BUTTON5) - Presses(es, BUTTON4))
      && ax + dx == Remainder(ax + dx) + SCROLL_THRESHOLD * (Presses(es, BUTTON7) - Presses(es, BUTTON6))
      && 0 <= Remainder(ax + dx) < SCROLL_THRESHOLD && 0 <= Remainder(ay + dy) < SCROLL_THRESHOLD
      && (Presses(es, BUTTON4) == 0 || Presses(es, BUTTON5) == 0)
      && (Presses(es, BUTTON6) == 0 || Presses(es, BUTTON7) == 0)
  {
    var v := Wheel(AxisClicks(ay + dy), BUTTON5, BUTTON4);
    var h := Wheel(AxisClicks(ax + dx), BUTTON7, BUTTON6);
    forall b | b in {BUTTON4, BUTTON5, BUTTON6, BUTTON7}
      ensures Presses(v + h, b) == Presses(v, b) + Presses(h, b)
    {
      PressesAppend(v, h, b);
    }
    WheelPresses(AxisClicks(ay + dy), BUTTON5, BUTTON4);
    WheelPresses(AxisClicks(ax + dx), BUTTON7, BUTTON6);
    WheelOnly(AxisClicks(ay + dy), BUTTON5, BUTTON4, BUTTON6);
    WheelOnly(AxisClicks(ay + dy), BUTTON5, BUTTON4, BUTTON7);
    WheelOnly(AxisClicks(ax + dx), BUTTON7, BUTTON6, BUTTON4);
    WheelOnly(AxisClicks(ax + dx), BUTTON7, BUTTON6, BUTTON5);
    RemainderBounds(ax + dx);
    RemainderBounds(ay + dy);
  }

  lemma WheelOnly(clicks: int, forward: int, back: int, other: int)
    requires other != forward && other != back
    ensures Presses(Wheel(clicks, forward, back), other) == 0
  {
    if clicks > 0 {
      ClicksPresses(forward, clicks, other);
    } else {
      ClicksPresses(back, -clicks, other);
    }
  }

  /**
   * The shape of one scroll: a run of clicks, with every vertical click
   * before every horizontal one.
   */
  lemma {:induction false} ScrollOrder(x: int, y: int)
    ensures Paired(ScrollEvents(x, y))
    ensures VerticalFirst(ScrollEvents(x, y))
  {
    var v := Wheel(AxisClicks(y), BUTTON5, BUTTON4);
    var h := Wheel(AxisClicks(x), BUTTON7, BUTTON6);
    var es := v + h;
    var vb := if AxisClicks(y) > 0 then BUTTON5 else BUTTON4;
    var hb := if AxisClicks(x) > 0 then BUTTON7 else BUTTON6;
    ClicksShape(vb, if AxisClicks(y) > 0 then AxisClicks(y) else -AxisClicks(y));
    ClicksShape(hb, if AxisClicks(x) > 0 then AxisClicks(x) else -AxisClicks(x));
    assert |v| % 2 == 0;
    forall k | 0 <= k < |es| / 2
      ensures es[2 * k].ButtonPress? && es[2 * k + 1] == ButtonRelease(es[2 * k].button)
    {
      if 2 * k < |v| {
        assert es[2 * k] == v[2 * k] && es[2 * k + 1] == v[2 * k + 1];
      } else {
        var k' := k - |v| / 2;
        assert es[2 * k] == h[2 * k'] && es[2 * k + 1] == h[2 * k' + 1];
      }
    }
    forall i, j | 0 <= i < j < |es| && IsHorizontal(es[i])
      ensures !IsVertical(es[j])
    {
      if i < |v| {
        assert false;
      }
      assert es[j] == h[j - |v|];
      assert OnButton(h[j - |v|], hb);
    }
  }

  /** The keysym tables of Xlib: `XK.string_to_keysym` (0 when unknown) and the `xkb` keysym module's attributes. */
  datatype KeysymTables = KeysymTables(xk: string -> int, xkb: map<string, int>)

  /** `getattr(xkb, name, default)`. */
  function XkbAttr(tables: KeysymTables, name: string, default: Option<int>): Option<int>
  {
    if name in tables.xkb then Some(tables.xkb[name]) else default
  }

  /**
   * `string_to_keysym(key, default)`: the XK name lookup, then the xkb
   * attribute `XK_<key>`, then `default`; a falsy (0 or None) final answer
   * raises ValueError.
   */
  function StringToKeysym(tables: KeysymTables, key: string, default: Option<int>): (r: Result<int>)
    ensures r.Ok? ==> r.value != 0
    ensures tables.xk(key) != 0 ==> r == Ok(tables.xk(key))
    ensures tables.xk(key) == 0 && ("XK_" + key) in tables.xkb && tables.xkb["XK_" + key] != 0
      ==> r == Ok(tables.xkb["XK_" + key])
    ensures tables.xk(key) == 0 && ("XK_" + key) !in tables.xkb
      ==> r == (if default.Some? && default.value != 0 then Ok(default.value) else Err("invalid symbol"))
    ensures r.Err? <==> tables.xk(key) == 0 && XkbAttr(tables, "XK_" + key, default) in {None, Some(0)}
  {
    if tables.xk(key) != 0 then Ok(tables.xk(key))
    else
      match XkbAttr(tables, "XK_" + key, default)
      case Some(k) => if k != 0 then Ok(k) else Err("invalid symbol")
      case None => Err("invalid symbol")
  }
}
