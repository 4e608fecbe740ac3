/**
 * html/js/lib/keyboard.js: the on-screen keyboard. The modifier state
 * lives in the classes of the keyboard element (`mod-none`, `mod-shift`,
 * `mod-altgr`, `mod-both`); a key without a symbol of its own is looked up
 * in the layout at the slot of the current modifiers; touches are tracked
 * by identifier so that a finger sliding onto another key releases the
 * old key and presses the new one. Which key lies under a touch
 * (`document.elementFromPoint`) is an input: each touch arrives as its
 * identifier and the key under it, if any.
 */
module Keyboard {
  import opened Wrappers

  const ModNone := "mod-none"
  const ModBoth := "mod-both"
  const ModShift := "mod-shift"
  const ModAltGr := "mod-altgr"

  /** The four modifier classes. */
  const Marks: set<string> := {ModNone, ModShift, ModAltGr, ModBoth}

  /** `getModifier(el, name)`: the element carries `name` or `mod-both`. */
  predicate Modifier(classes: set<string>, name: string)
  {
    name in classes || ModBoth in classes
  }

  /** The modifier paired with `name` in `setModifier`. */
  function Other(name: string): string
  {
    if name == ModShift then ModAltGr else ModShift
  }

  /** The classes after `setModifier(el, name, value)`: only the modifier classes change. */
  function WithModifier(classes: set<string>, name: string, value: bool): (r: set<string>)
    ensures r - Marks == classes - Marks
  {
    if name != ModShift && name != ModAltGr then classes
    else if value then
      (if Modifier(classes, Other(name)) then classes - {Other(name)} + {ModBoth} else classes + {name}) - {ModNone}
    else if ModBoth in classes then classes - {ModBoth} + {Other(name)}
    else classes - {name} + {ModNone}
  }

  /**
   * The modifier classes an element can carry under `setModifier`: exactly
   * one of the four, or a modifier left beside `mod-none` (see
   * `StrayNone`).
   */
  predicate Consistent(classes: set<string>)
  {
    var m := classes * Marks;
    m == {ModNone} || m == {ModShift} || m == {ModAltGr} || m == {ModBoth} ||
    m == {ModShift, ModNone} || m == {ModAltGr, ModNone}
  }

  /**
   * `setModifier` ignores every name but `mod-shift` and `mod-altgr`; for
   * those it sets the modifier asked for, leaves the other one as it was,
   * and keeps the classes consistent.
   */
  lemma SetModifierMeaning(classes: set<string>, name: string, value: bool)
    requires Consistent(classes)
    ensures name != ModShift && name != ModAltGr ==> WithModifier(classes, name, value) == classes
    ensures name == ModShift || name == ModAltGr ==>
      var r := WithModifier(classes, name, value);
      Consistent(r) && Modifier(r, name) == value && Modifier(r, Other(name)) == Modifier(classes, Other(name))
  {
    if name == ModShift || name == ModAltGr {
      var r := WithModifier(classes, name, value);
      var o := Other(name);
      assert o != name && (o == ModShift || o == ModAltGr);
      var m := classes * Marks;
      assert ModNone in classes <==> ModNone in m;
      assert ModBoth in classes <==> ModBoth in m;
      assert name in classes <==> name in m;
      assert o in classes <==> o in m;
      assert r * Marks == WithModifier(m, name, value);
    }
  }

  /** Exactly one of the four modifier classes. */
  predicate OneMark(classes: set<string>)
  {
    var m := classes * Marks;
    m == {ModNone} || m == {ModShift} || m == {ModAltGr} || m == {ModBoth}
  }

  /**
   * From exactly one modifier class, turning a modifier to a value it did
   * not have leaves exactly one modifier class.
   */
  lemma SetModifierOneClass(classes: set<string>, name: string, value: bool)
    requires OneMark(classes)
    requires name == ModShift || name == ModAltGr
    requires value != Modifier(classes, name)
    ensures OneMark(WithModifier(classes, name, value))
  {
    var m := classes * Marks;
    var o := Other(name);
    assert o != name && (o == ModShift || o == ModAltGr);
    var r := WithModifier(classes, name, value);
    assert ModNone in classes <==> ModNone in m;
    assert ModBoth in classes <==> ModBoth in m;
    assert name in classes <==> name in m;
    assert o in classes <==> o in m;
    assert r * Marks == WithModifier(m, name, value);
  }

  /**
   * Turning off a modifier that is off while the other is on leaves that
   * modifier's class beside `mod-none`.
   */
  lemma StrayNone()
    ensures WithModifier({ModAltGr}, ModShift, false) == {ModAltGr, ModNone}
    ensures Modifier({ModAltGr, ModNone}, ModAltGr) && !Modifier({ModAltGr, ModNone}, ModShift)
  {
  }

  /** A slot of a layout key: display name, keysym and symbol. */
  datatype Slot = Slot(name: string, keysym: string, symbol: string)

  /** A key element: identity, its `x-keysym` and `x-symbol` attributes, and its row and column. */
  datatype Key = Key(id: nat, keysym: Option<string>, symbol: Option<string>, row: int, col: int)

  /** What a `press` or `release` event carries: `[name, keysym, symbol]`. */
  datatype Detail = Detail(name: Option<string>, keysym: Option<string>, symbol: Option<string>)

  datatype KeyEvent = KeyEvent(pressed: bool, detail: Detail)

  /** `(shift << 0) | (altgr << 1)` */
  function Index(shift: bool, altgr: bool): (r: nat)
    ensures r < 4
  {
    (if shift then 1 else 0) + (if altgr then 2 else 0)
  }

  /** The four slots are told apart by the two modifiers. */
  lemma IndexInjective(s1: bool, a1: bool, s2: bool, a2: bool)
    ensures Index(s1, a1) == Index(s2, a2) <==> s1 == s2 && a1 == a2
  {
  }

  /**
   * The event detail of a key: its own attributes when it has a symbol,
   * otherwise the layout slot for the current modifiers; None where the
   * lookup meets `undefined` and raises TypeError.
   */
  function Resolve(layout: map<(int, int), seq<Slot>>, classes: set<string>, key: Key): (r: Option<Detail>)
    ensures r.Some? ==> r.value.symbol.Some?
    ensures r.Some? && r.value.name.None? ==> r.value.keysym == key.keysym && r.value.symbol == key.symbol
    ensures r.None? ==> key.symbol.None? || key.symbol == Some("")
  {
    if key.symbol.Some? && key.symbol.value != "" then Some(Detail(None, key.keysym, key.symbol))
    else
      var index := Index(Modifier(classes, ModShift), Modifier(classes, ModAltGr));
      if (key.row, key.col) in layout && index < |layout[(key.row, key.col)]| then
        var s := layout[(key.row, key.col)][index];
        Some(Detail(Some(s.name), Some(s.keysym), Some(s.symbol)))
      else None
  }

  /** A key without a symbol of its own reads the layout slot `shift + 2 * altgr`. */
  lemma ResolveSlot(layout: map<(int, int), seq<Slot>>, classes: set<string>, key: Key)
    requires key.symbol.None? || key.symbol == Some("")
    requires (key.row, key.col) in layout && |layout[(key.row, key.col)]| == 4
    ensures var s := layout[(key.row, key.col)][Index(Modifier(classes, ModShift), Modifier(classes, ModAltGr))];
      Resolve(layout, classes, key) == Some(Detail(Some(s.name), Some(s.keysym), Some(s.symbol)))
  {
  }

  /** The modifier classes after a key with this symbol is pressed or released: no other class changes. */
  function AfterKey(classes: set<string>, symbol: Option<string>, pressed: bool): (r: set<string>)
    ensures r - Marks == classes - Marks
  {
    if symbol == Some("ISO_Level3_Shift") then WithModifier(classes, ModAltGr, pressed)
    else if symbol == Some("Caps_Lock") then
      (if pressed then WithModifier(classes, ModShift, !Modifier(classes, ModShift)) else classes)
    else if symbol == Some("Shift_L") || symbol == Some("Shift_R") then WithModifier(classes, ModShift, pressed)
    else classes
  }

  /**
   * AltGr follows its key, Shift follows either Shift key, Caps Lock
   * toggles Shift when pressed, and every other key leaves the modifiers
   * alone.
   */
  lemma ModifierKeys(classes: set<string>, symbol: Option<string>, pressed: bool)
    requires Consistent(classes)
    ensures var r := AfterKey(classes, symbol, pressed);
      Consistent(r) &&
      (symbol == Some("ISO_Level3_Shift") ==>
        Modifier(r, ModAltGr) == pressed && Modifier(r, ModShift) == Modifier(classes, ModShift)) &&
      (symbol == Some("Shift_L") || symbol == Some("Shift_R") ==>
        Modifier(r, ModShift) == pressed && Modifier(r, ModAltGr) == Modifier(classes, ModAltGr)) &&
      (symbol == Some("Caps_Lock") && pressed ==>
        Modifier(r, ModShift) == !Modifier(classes, ModShift) && Modifier(r, ModAltGr) == Modifier(classes, ModAltGr)) &&
      (symbol == Some("Caps_Lock") && !pressed ==> r == classes) &&
      (symbol !in {Some("ISO_Level3_Shift"), Some("Shift_L"), Some("Shift_R"), Some("Caps_Lock")} ==> r == classes)
  {
    SetModifierMeaning(classes, ModAltGr, pressed);
    SetModifierMeaning(classes, ModShift, pressed);
    SetModifierMeaning(classes, ModShift, !Modifier(classes, ModShift));
  }

  /** The keyboard's state: element classes, tracked touches, pressed keys and dispatched events. */
  datatype Board = Board(classes: set<string>, touches: map<int, Option<Key>>, pressed: set<Key>, events: seq<KeyEvent>)

  /**
   * `_handleKey(key, pressed)`: the key's `pressed` class, then the
   * lookup, the modifier update and the event; false where it raises
   * TypeError (no key, or nothing in the layout).
   */
  function Handle(layout: map<(int, int), seq<Slot>>, b: Board, key: Option<Key>, pressed: bool): (r: (Board, bool))
    ensures r.0.touches == b.touches
    ensures r.1 <==> key.Some? && Resolve(layout, b.classes, key.value).Some?
    ensures r.1 ==> r.0.events == b.events + [KeyEvent(pressed, Resolve(layout, b.classes, key.value).value)]
    ensures !r.1 ==> r.0.events == b.events && r.0.classes == b.classes
    ensures key.Some? ==> (key.value in r.0.pressed <==> pressed)
  {
    if key.None? then (b, false)
    else
      var k := key.value;
      var down := if pressed then b.pressed + {k} else b.pressed - {k};
      match Resolve(layout, b.classes, k)
      case None => (b.(pressed := down), false)
      case Some(d) =>
        (b.(pressed := down, classes := AfterKey(b.classes, d.symbol, pressed),
            events := b.events + [KeyEvent(pressed, d)]), true)
  }

  /** Handling a key keeps the modifier classes consistent. */
  lemma HandleConsistent(layout: map<(int, int), seq<Slot>>, b: Board, key: Option<Key>, pressed: bool)
    requires Consistent(b.classes)
    ensures Consistent(Handle(layout, b, key, pressed).0.classes)
  {
    if key.Some? {
      match Resolve(layout, b.classes, key.value)
      case None =>
      case Some(d) => ModifierKeys(b.classes, d.symbol, pressed);
    }
  }

  /** The key last recorded for a touch, if any. */
  function Previous(b: Board, id: int): Option<Key>
  {
    if id in b.touches then b.touches[id] else None
  }

  datatype Phase = Start | Move | End

  /** `onTouchStart`'s callback: record the key, which may be none, and press it. */
  function StartStep(layout: map<(int, int), seq<Slot>>, b: Board, id: int, key: Option<Key>): (Board, bool)
  {
    var b1 := b.(touches := b.touches[id := key]);
    if key.Some? then Handle(layout, b1, key, true) else (b1, true)
  }

  /** `onTouchMove`'s callback: release a different previous key, then press and record a different new one. */
  function MoveStep(layout: map<(int, int), seq<Slot>>, b: Board, id: int, key: Option<Key>): (Board, bool)
  {
    var previous := Previous(b, id);
    var (b1, ok) := if previous.Some? && previous != key then Handle(layout, b, previous, false) else (b, true);
    if !ok then (b1, false)
    else if key.Some? && key != previous then Handle(layout, b1.(touches := b1.touches[id := key]), key, true)
    else (b1, true)
  }

  /** `onTouchEnd`'s callback: release the recorded key and forget the touch. */
  function EndStep(layout: map<(int, int), seq<Slot>>, b: Board, id: int): (Board, bool)
  {
    var (b1, ok) := Handle(layout, b, Previous(b, id), false);
    if ok then (b1.(touches := b1.touches - {id}), true) else (b1, false)
  }

  /**
   * One touch of a touch event, as each handler's callback treats it: it
   * adds at most two events (a release, then a press), and a touch that
   * ends is forgotten.
   */
  function Step(phase: Phase, layout: map<(int, int), seq<Slot>>, b: Board, hit: (int, Option<Key>)): (r: (Board, bool))
    ensures b.events <= r.0.events && |r.0.events| <= |b.events| + 2
    ensures phase == End && r.1 ==> hit.0 !in r.0.touches
    ensures phase == Start ==> r.0.touches == b.touches[hit.0 := hit.1]
  {
    match phase
    case Start => StartStep(layout, b, hit.0, hit.1)
    case Move => MoveStep(layout, b, hit.0, hit.1)
    case End => EndStep(layout, b, hit.0)
  }

  /**
   * A handler over all its touches, in order, stopping at the first
   * exception; the events dispatched before stay, at most two per touch.
   */
  function Run(phase: Phase, layout: map<(int, int), seq<Slot>>, b: Board, hits: seq<(int, Option<Key>)>): (r: (Board, bool))
    ensures b.events <= r.0.events && |r.0.events| <= |b.events| + 2 * |hits|
  {
    if hits == [] then (b, true)
    else
      var (b1, ok) := Run(phase, layout, b, hits[..|hits| - 1]);
      if ok then Step(phase, layout, b1, hits[|hits| - 1]) else (b1, false)
  }

  lemma RunSnoc(phase: Phase, layout: map<(int, int), seq<Slot>>, b: Board, hits: seq<(int, Option<Key>)>, i: nat)
    requires i < |hits|
    ensures var (b1, ok) := Run(phase, layout, b, hits[..i]);
      Run(phase, layout, b, hits[..i + 1]) == if ok then Step(phase, layout, b1, hits[i]) else (b1, false)
  {
    assert hits[..i + 1][..i] == hits[..i];
  }

  /** After an exception nothing more happens: the handler ends where it raised. */
  lemma {:induction false} RunStops(phase: Phase, layout: map<(int, int), seq<Slot>>, b: Board, hits: seq<(int, Option<Key>)>, i: nat)
    requires i <= |hits| && !Run(phase, layout, b, hits[..i]).1
    ensures Run(phase, layout, b, hits) == Run(phase, layout, b, hits[..i])
  {
    if i < |hits| {
      var init := hits[..|hits| - 1];
      assert init[..i] == hits[..i];
      RunStops(phase, layout, b, init, i);
    } else {
      assert hits[..i] == hits;
    }
  }

  /** Handlers keep the modifier classes consistent, however far they get. */
  lemma {:induction false} RunConsistent(phase: Phase, layout: map<(int, int), seq<Slot>>, b: Board, hits: seq<(int, Option<Key>)>)
    requires Consistent(b.classes)
    ensures Consistent(Run(phase, layout, b, hits).0.classes)
  {
    if hits != [] {
      RunConsistent(phase, layout, b, hits[..|hits| - 1]);
      var (b1, ok) := Run(phase, layout, b, hits[..|hits| - 1]);
      if ok {
        var (id, key) := hits[|hits| - 1];
        var previous := Previous(b1, id);
        match phase
        case Start =>
          HandleConsistent(layout, b1.(touches := b1.touches[id := key]), key, true);
        case Move =>
          HandleConsistent(layout, b1, previous, false);
          var (b2, ok2) := if previous.Some? && previous != key then Handle(layout, b1, previous, false) else (b1, true);
          HandleConsistent(layout, b2.(touches := b2.touches[id := key]), key, true);
        case End =>
          HandleConsistent(layout, b1, previous, false);
      }
    }
  }

  /**
   * A touch that slides from one key onto another releases the old key
   * and then presses the new one, which it now tracks.
   */
  lemma MoveOntoNewKey(layout: map<(int, int), seq<Slot>>, b: Board, id: int, old_: Key, new_: Key)
    requires Previous(b, id) == Some(old_) && old_ != new_
    requires Resolve(layout, b.classes, old_).Some?
    ensures var (r, ok) := Step(Move, layout, b, (id, Some(new_)));
      var released := Handle(layout, b, Some(old_), false).0;
      |released.events| == |b.events| + 1 &&
      released.events[|b.events|] == KeyEvent(false, Resolve(layout, b.classes, old_).value) &&
      (ok <==> Resolve(layout, released.classes, new_).Some?) &&
      (ok ==>
        r.events == released.events + [KeyEvent(true, Resolve(layout, released.classes, new_).value)] &&
        r.touches == b.touches[id := Some(new_)] &&
        new_ in r.pressed && (old_ in r.pressed <==> old_ in b.pressed && old_ == new_))
  {
  }

  /**
   * A touch that slides off every key releases its key but keeps it
   * tracked, so the key is not pressed again when the touch slides back.
   */
  lemma MoveOffKeys(layout: map<(int, int), seq<Slot>>, b: Board, id: int, k: Key)
    requires Previous(b, id) == Some(k) && Resolve(layout, b.classes, k).Some?
    ensures var (r, ok) := Step(Move, layout, b, (id, None));
      ok && r.touches == b.touches && k !in r.pressed &&
      r.events == b.events + [KeyEvent(false, Resolve(layout, b.classes, k).value)] &&
      Step(Move, layout, r, (id, Some(k))) == (r, true)
  {
  }

  /**
   * Lifting a touch releases its key and forgets the touch; lifting a
   * touch that never reached a key raises TypeError and forgets nothing.
   */
  lemma EndForgets(layout: map<(int, int), seq<Slot>>, b: Board, id: int, key: Option<Key>)
    ensures var (r, ok) := Step(End, layout, b, (id, key));
      (Previous(b, id).None? ==> !ok && r == b) &&
      (ok <==> Previous(b, id).Some? && Resolve(layout, b.classes, Previous(b, id).value).Some?) &&
      (ok ==>
        id !in r.touches && Previous(b, id).value !in r.pressed &&
        r.events == b.events + [KeyEvent(false, Resolve(layout, b.classes, Previous(b, id).value).value)])
  {
  }

  /** The keyboard element and its touch handlers. */
  class Keyboard {
    var classes: set<string>
    var touches: map<int, Option<Key>>
    var pressed: set<Key>
    var events: seq<KeyEvent>
    const layout: map<(int, int), seq<Slot>>

    function State(): Board
      reads this
    {
      Board(classes, touches, pressed, events)
    }

    /** `new Keyboard(parentEl, ...)`: no touches, and no modifier toggled. */
    constructor(parentClasses: set<string>, layout: map<(int, int), seq<Slot>>)
      ensures classes == parentClasses + {ModNone} && touches == map[] && pressed == {} && events == []
      ensures this.layout == layout
      ensures parentClasses * Marks == {} ==> Consistent(classes) && !Modifier(classes, ModShift) && !Modifier(classes, ModAltGr)
    {
      classes := parentClasses + {ModNone};
      touches := map[];
      pressed := {};
      events := [];
      this.layout := layout;
      new;
      if parentClasses * Marks == {} {
        assert ModNone[4] == 'n' && ModShift[4] == 's' && ModAltGr[4] == 'a' && ModBoth[4] == 'b';
        assert ModShift !in parentClasses && ModAltGr !in parentClasses && ModBoth !in parentClasses;
        assert classes * Marks == {ModNone};
      }
    }

    /** `module.setModifier(parentEl, name, value)`, through the `shift` and `altgr` setters. */
    method SetModifier(name: string, value: bool)
      modifies this
      ensures State() == old(State()).(classes := WithModifier(old(classes), name, value))
    {
      var other;
      if name == ModShift {
        other := ModAltGr;
      } else if name == ModAltGr {
        other := ModShift;
      } else {
        return;
      }
      if value {
        if Modifier(classes, other) {
          classes := classes - {other};
          classes := classes + {ModBoth};
        } else {
          classes := classes + {name};
        }
        classes := classes - {ModNone};
      } else {
        if ModBoth in classes {
          classes := classes - {ModBoth};
          classes := classes + {other};
        } else {
          classes := classes - {name};
          classes := classes + {ModNone};
        }
      }
    }

    /** `_handleKey(key, pressed)`; false where it raises TypeError. */
    method HandleKey(key: Option<Key>, isPressed: bool) returns (ok: bool)
      modifies this
      ensures (State(), ok) == Handle(layout, old(State()), key, isPressed)
    {
      if key.None? {
        return false;
      }
      var k := key.value;
      if isPressed {
        pressed := pressed + {k};
      } else {
        pressed := pressed - {k};
      }
      var name: Option<string> := None;
      var keysym := k.keysym;
      var symbol := k.symbol;
      if symbol.None? || symbol.value == "" {
        var index := Index(Modifier(classes, ModShift), Modifier(classes, ModAltGr));
        if (k.row, k.col) !in layout || index >= |layout[(k.row, k.col)]| {
          return false;
        }
        var slot := layout[(k.row, k.col)][index];
        name := Some(slot.name);
        keysym := Some(slot.keysym);
        symbol := Some(slot.symbol);
      }
      if symbol == Some("ISO_Level3_Shift") {
        SetModifier(ModAltGr, isPressed);
      } else if symbol == Some("Caps_Lock") {
        if isPressed {
          SetModifier(ModShift, !Modifier(classes, ModShift));
        }
      } else if symbol == Some("Shift_L") || symbol == Some("Shift_R") {
        SetModifier(ModShift, isPressed);
      }
      events := events + [KeyEvent(isPressed, Detail(name, keysym, symbol))];
      ok := true;
    }

    /** The callback of one touch in `onTouchStart`, `onTouchMove` or `onTouchEnd`. */
    method Touch(phase: Phase, id: int, key: Option<Key>) returns (ok: bool)
      modifies this
      ensures (State(), ok) == Step(phase, layout, old(State()), (id, key))
    {
      var previous := if id in touches then touches[id] else None;
      match phase
      case Start =>
        touches := touches[id := key];
        ok := true;
        if key.Some? {
          ok := HandleKey(key, true);
        }
      case Move =>
        ok := true;
        if previous.Some? && previous != key {
          ok := HandleKey(previous, false);
        }
        if ok && key.Some? && key != previous {
          touches := touches[id := key];
          ok := HandleKey(key, true);
        }
      case End =>
        ok := HandleKey(previous, false);
        if ok {
          touches := touches - {id};
        }
    }

    /** `onTouchStart`, `onTouchMove` (over `t.touches`) or `onTouchEnd` (over `t.changedTouches`). */
    method OnTouch(phase: Phase, hits: seq<(int, Option<Key>)>) returns (ok: bool)
      modifies this
      ensures (State(), ok) == Run(phase, layout, old(State()), hits)
    {
      ghost var start := State();
      ok := true;
      var i := 0;
      while i < |hits| && ok
        invariant 0 <= i <= |hits|
        invariant (State(), ok) == Run(phase, layout, start, hits[..i])
      {
        RunSnoc(phase, layout, start, hits, i);
        ok := Touch(phase, hits[i].0, hits[i].1);
        i := i + 1;
      }
      assert hits[..|hits|] == hits;
      if !ok {
        RunStops(phase, layout, start, hits, i);
      }
    }
  }
}
