/**
 * The Windows driver (event/win32.py). Keys become SendInput keyboard
 * records: one-character names as Unicode input, other keys by virtual-key
 * code. A dead key (such as dead_acute) is held back in a module-level
 * `dead_key` and combined with the next key when Unicode composition (NFC,
 * Unicode Standard Annex #15) gives a single character.
 */
module Win32Event {
  import opened Wrappers
  import opened Numbers
  import Strings

  /** The Unicode character database as far as the driver uses it. */
  datatype UnicodeDb = UnicodeDb(
    name: char -> Option<string>,    // unicodedata.name; None for ValueError
    lookup: string -> Option<char>,  // unicodedata.lookup; None for KeyError
    nfc: string -> string)           // unicodedata.normalize('NFC', _)

  /** The pending dead key: its name and its combining character. */
  datatype DeadKey = DeadKey(name: string, combining: char)

  /** The keyboard part of an INPUT record. */
  datatype KeyboardInput = KeyboardInput(wVk: int, wScan: int, dwFlags: int)
  /** The mouse part of an INPUT record. */
  datatype MouseInput = MouseInput(dx: int, dy: int, mouseData: int, dwFlags: int)
  /** One INPUT record passed to SendInput. */
  datatype Input = Keyboard(keyboard: KeyboardInput) | Mouse(mouse: MouseInput)

  const MOVE: int := 0x0001
  const LEFTDOWN: int := 0x0002
  const LEFTUP: int := 0x0004
  const RIGHTDOWN: int := 0x0008
  const RIGHTUP: int := 0x0010
  const MIDDLEDOWN: int := 0x0020
  const MIDDLEUP: int := 0x0040
  const WHEEL: int := 0x0800

  const KEYUP: int := 0x0002
  const UNICODE: int := 0x0004

  /** MOUSEINPUT.BUTTON_MAPPING: button number to (down flag, up flag). */
  const BUTTON_MAPPING: map<int, (int, int)> := map[
    1 := (LEFTDOWN, LEFTUP),
    2 := (MIDDLEDOWN, MIDDLEUP),
    3 := (RIGHTDOWN, RIGHTUP)]

  /** The X key symbol names that have a Windows virtual-key code (event/_win32_syms.py). */
  const SYMS: map<string, int> := map[
    "BackSpace" := 0x08, "Return" := 0x0D, "space" := 0x20, "Tab" := 0x09,
    "Menu" := 0x5D, "Super_L" := 0x5B, "Super_R" := 0x5C,
    "Alt_L" := 0xA4, "Caps_Lock" := 0x14, "Control_L" := 0xA2, "Control_R" := 0xA3,
    "ISO_Level3_Shift" := 0xA5, "Shift_L" := 0xA0, "Shift_R" := 0xA1,
    "Escape" := 0x1B,
    "F1" := 0x70, "F2" := 0x71, "F3" := 0x72, "F4" := 0x73, "F5" := 0x74, "F6" := 0x75,
    "F7" := 0x76, "F8" := 0x77, "F9" := 0x78, "F10" := 0x79, "F11" := 0x7A, "F12" := 0x7B,
    "Down" := 0x28, "Left" := 0x25, "Right" := 0x27, "Up" := 0x26,
    "End" := 0x23, "Home" := 0x24, "Next" := 0x22, "Prior" := 0x21]

  /** Storing an int in a ctypes `c_uint16` field keeps the low 16 bits. */
  function U16(x: int): (r: int)
    ensures 0 <= r < 0x1_0000 && (x - r) % 0x1_0000 == 0
    ensures 0 <= x < 0x1_0000 ==> r == x
  {
    x % 0x1_0000
  }

  /** Storing an int in a ctypes `c_uint32` field keeps the low 32 bits. */
  function U32(x: int): (r: int)
    ensures 0 <= r < 0x1_0000_0000 && (x - r) % 0x1_0000_0000 == 0
    ensures 0 <= x < 0x1_0000_0000 ==> r == x
  {
    x % 0x1_0000_0000
  }

  /** Storing an int in a ctypes `c_int32` field: two's complement wrap-around. */
  function I32(x: int): (r: int)
    ensures -0x8000_0000 <= r < 0x8000_0000 && (x - r) % 0x1_0000_0000 == 0
    ensures -0x8000_0000 <= x < 0x8000_0000 ==> r == x
  {
    (x + 0x8000_0000) % 0x1_0000_0000 - 0x8000_0000
  }

  /** `is_dead(symbol)`: `symbol and symbol.startswith('dead_')`, read as a truth value. */
  function IsDead(symbol: Option<string>): (r: bool)
    ensures r <==> symbol.Some? && |symbol.value| >= 5 && symbol.value[..5] == "dead_"
  {
    symbol.Some? && Strings.StartsWith(symbol.value, "dead_")
  }

  /** `name and len(name) == 1`: the key is one character, sent as Unicode. */
  predicate IsCharacter(name: Option<string>)
  {
    name.Some? && |name.value| == 1
  }

  /**
   * `key_event(name, symbol, flags)`: a one-character name is sent as
   * Unicode input with `wScan = ord(name)`; otherwise the symbol's
   * virtual-key code is sent, and an unknown symbol sends nothing.
   */
  function KeyEvent(name: Option<string>, symbol: Option<string>, flags: int): (r: seq<Input>)
    ensures |r| <= 1
    ensures IsCharacter(name) ==> r == [Keyboard(KeyboardInput(0, U16(name.value[0] as int), U32(UNICODE + flags)))]
    ensures !IsCharacter(name) ==> (r == [] <==> symbol.None? || symbol.value !in SYMS)
    ensures !IsCharacter(name) && symbol.Some? && symbol.value in SYMS ==>
      r == [Keyboard(KeyboardInput(SYMS[symbol.value], 0, U32(flags)))]
  {
    if IsCharacter(name) then
      // UNICODE | flags: the drivers only pass 0 or KEYUP, which share no bit with UNICODE
      [Keyboard(KeyboardInput(0, U16(name.value[0] as int), U32(UNICODE + flags)))]
    else if symbol.Some? && symbol.value in SYMS then
      [Keyboard(KeyboardInput(U16(SYMS[symbol.value]), 0, U32(flags)))]
    else
      []
  }

  /**
   * `set_dead_key(name)`: None clears the pending key; a name becomes
   * pending with its combining character `lookup('COMBINING ' + name(c))`.
   * A name that is not one character (TypeError), has no Unicode name
   * (ValueError) or no combining form (KeyError) raises.
   */
  function SetDeadKey(db: UnicodeDb, name: Option<string>): (r: Result<Option<DeadKey>>)
    ensures name.None? ==> r == Ok(None)
    ensures r.Ok? && name.Some? ==> r.value.Some? && r.value.value.name == name.value && |name.value| == 1
    ensures name.Some? ==> (r.Ok? <==> CombiningOf(db, name.value).Some?)
    ensures r.Ok? && name.Some? ==> r.value.value.combining == CombiningOf(db, name.value).value
  {
    if name.None? then Ok(None)
    else
      match CombiningOf(db, name.value)
      case Some(c) => Ok(Some(DeadKey(name.value, c)))
      case None => Err("no combining character")
  }

  /** The combining form of a one-character name, when the database has one. */
  function CombiningOf(db: UnicodeDb, name: string): Option<char>
  {
    if |name| != 1 then None
    else
      match db.name(name[0])
      case None => None
      case Some(n) => db.lookup("COMBINING " + n)
  }

  /** The invariant on `dead_key`: a pending key is one character with a combining form. */
  predicate ValidDead(db: UnicodeDb, dead: Option<DeadKey>)
  {
    dead.Some? ==> CombiningOf(db, dead.value.name) == Some(dead.value.combining)
  }

  /** The first part of `key_down`: a pending dead key is cleared, and composed or flushed. */
  datatype Flush = Composed(events: seq<Input>) | Flushed(events: seq<Input>)

  function FlushDead(db: UnicodeDb, dead: Option<DeadKey>, name: Option<string>): Flush
  {
    match dead
    case None => Flushed([])
    case Some(DeadKey(previous, combining)) =>
      if IsCharacter(name) && |db.nfc(name.value + [combining])| == 1 then
        Composed(KeyEvent(Some(db.nfc(name.value + [combining])), None, 0))
      else
        Flushed(KeyEvent(Some(previous), None, 0))
  }

  /**
   * `key_down(name, keysym, symbol)` as a step on (dead_key, sent input):
   * the new pending key and the records sent. It keeps the invariant on
   * the pending key, and sends at most two records.
   */
  function KeyDownStep(db: UnicodeDb, dead: Option<DeadKey>, name: Option<string>, symbol: Option<string>)
    : (r: (Option<DeadKey>, seq<Input>))
    ensures ValidDead(db, r.0)
    ensures |r.1| <= 2
  {
    match FlushDead(db, dead, name)
    case Composed(es) => (None, es)
    case Flushed(es) =>
      if IsDead(symbol) && SetDeadKey(db, name).Ok? then (SetDeadKey(db, name).value, es)
      else (None, es + KeyEvent(name, symbol, 0))
  }

  /** A one-character key is always sent as exactly one Unicode record. */
  function UnicodeInput(c: char, flags: int): Input
  {
    Keyboard(KeyboardInput(0, U16(c as int), U32(UNICODE + flags)))
  }

  /** With a key pending and a key that composes with it, only the composed character is sent. */
  lemma KeyDownComposes(db: UnicodeDb, dead: DeadKey, name: string, symbol: Option<string>)
    requires |name| == 1 && |db.nfc(name + [dead.combining])| == 1
    ensures KeyDownStep(db, Some(dead), Some(name), symbol)
      == (None, [UnicodeInput(db.nfc(name + [dead.combining])[0], 0)])
  {
  }

  /**
   * With a valid key pending and a key that does not compose with it, the
   * pending character is sent first, and the current key is then handled as
   * with nothing pending.
   */
  lemma KeyDownFlushes(db: UnicodeDb, dead: DeadKey, name: Option<string>, symbol: Option<string>)
    requires ValidDead(db, Some(dead))
    requires !(IsCharacter(name) && |db.nfc(name.value + [dead.combining])| == 1)
    ensures var (d, es) := KeyDownStep(db, Some(dead), name, symbol);
      var (d0, es0) := KeyDownStep(db, None, name, symbol);
      d == d0 && es == [UnicodeInput(dead.name[0], 0)] + es0
  {
  }

  /**
   * With nothing pending, a dead-key symbol whose name has a combining form
   * becomes the pending key and sends nothing; without a combining form it
   * is sent as an ordinary key.
   */
  lemma KeyDownDefers(db: UnicodeDb, name: Option<string>, symbol: Option<string>)
    requires IsDead(symbol)
    ensures name.Some? && CombiningOf(db, name.value).Some? ==>
      KeyDownStep(db, None, name, symbol) == (Some(DeadKey(name.value, CombiningOf(db, name.value).value)), [])
    ensures name.None? ==> KeyDownStep(db, None, name, symbol) == (None, [])
    ensures name.Some? && CombiningOf(db, name.value).None? ==>
      KeyDownStep(db, None, name, symbol) == (None, KeyEvent(name, symbol, 0))
  {
    assert [] + KeyEvent(name, symbol, 0) == KeyEvent(name, symbol, 0);
  }

  /** The driver's module state and what it has sent. */
  class Driver {
    const db: UnicodeDb
    var deadKey: Option<DeadKey>
    var sent: seq<Input>

    ghost predicate Valid()
      reads this
    {
      ValidDead(db, deadKey)
    }

    /** Module import: `dead_key = None`. */
    constructor (db: UnicodeDb)
      ensures this.db == db && deadKey == None && sent == [] && Valid()
    {
      this.db := db;
      deadKey := None;
      sent := [];
    }

    /** `SendInput` with one record. */
    method Send(input: Input)
      modifies this`sent
      ensures sent == old(sent) + [input]
    {
      sent := sent + [input];
    }

    /** `key_event(name, symbol, flags)`. */
    method SendKeyEvent(name: Option<string>, symbol: Option<string>, flags: int)
      modifies this`sent
      ensures sent == old(sent) + KeyEvent(name, symbol, flags)
    {
      if name.Some? && |name.value| == 1 {
        Send(Keyboard(KeyboardInput(0, U16(name.value[0] as int), U32(UNICODE + flags))));
      } else if symbol.Some? && symbol.value in SYMS {
        Send(Keyboard(KeyboardInput(U16(SYMS[symbol.value]), 0, U32(flags))));
      }
      // An unknown symbol is logged and nothing is sent
    }

    /** `set_dead_key(name)`: on an error nothing is assigned. */
    method SetDead(name: Option<string>) returns (r: Result<()>)
      modifies this`deadKey
      ensures r.Ok? <==> SetDeadKey(db, name).Ok?
      ensures deadKey == if r.Ok? then SetDeadKey(db, name).value else old(deadKey)
    {
      var d := SetDeadKey(db, name);
      if d.Err? {
        return Err(d.error);
      }
      deadKey := d.value;
      r := Ok(());
    }

    /** `key_down(name, keysym, symbol)`. */
    method KeyDown(name: Option<string>, keysym: Option<int>, symbol: Option<string>)
      requires Valid()
      modifies this`deadKey, this`sent
      ensures Valid()
      ensures deadKey == KeyDownStep(db, old(deadKey), name, symbol).0
      ensures sent == old(sent) + KeyDownStep(db, old(deadKey), name, symbol).1
    {
      if deadKey.Some? {
        var DeadKey(previousName, combining) := deadKey.value;
        var _ := SetDead(None);
        if name.Some? && |name.value| == 1 {
          var combined := db.nfc(name.value + [combining]);
          if |combined| == 1 {
            SendKeyEvent(Some(combined), None, 0);
            return;
          }
        }
        SendKeyEvent(Some(previousName), None, 0);
      }

      if IsDead(symbol) {
        var ok := SetDead(name);
        if ok.Ok? {
          return;
        }
        // The failure is logged, and the key is sent as an ordinary one
      }

      SendKeyEvent(name, symbol, 0);
    }

    /** `key_up(name, keysym, symbol)`: a release record; the pending dead key is neither read nor changed. */
    method KeyUp(name: Option<string>, keysym: Option<int>, symbol: Option<string>)
      modifies this`sent
      ensures sent == old(sent) + KeyEvent(name, symbol, KEYUP)
    {
      SendKeyEvent(name, symbol, KEYUP);
    }

    /** `mouse_down(button)`: the button's down flag; KeyError for a button other than 1, 2 or 3. */
    method MouseDown(button: int) returns (r: Result<()>)
      modifies this`sent
      ensures r.Ok? <==> button in {1, 2, 3}
      ensures sent == old(sent) + (if r.Ok? then [Mouse(MouseInput(0, 0, 0, BUTTON_MAPPING[button].0))] else [])
    {
      if button !in BUTTON_MAPPING {
        return Err("KeyError");
      }
      Send(Mouse(MouseInput(0, 0, 0, BUTTON_MAPPING[button].0)));
      r := Ok(());
    }

    /** `mouse_up(button)`: the button's up flag; KeyError for a button other than 1, 2 or 3. */
    method MouseUp(button: int) returns (r: Result<()>)
      modifies this`sent
      ensures r.Ok? <==> button in {1, 2, 3}
      ensures sent == old(sent) + (if r.Ok? then [Mouse(MouseInput(0, 0, 0, BUTTON_MAPPING[button].1))] else [])
    {
      if button !in BUTTON_MAPPING {
        return Err("KeyError");
      }
      Send(Mouse(MouseInput(0, 0, 0, BUTTON_MAPPING[button].1)));
      r := Ok(());
    }

    /** `mouse_scroll(dx, dy)`: one wheel record carrying dy; the horizontal delta is dropped. */
    method MouseScroll(dx: int, dy: int)
      modifies this`sent
      ensures sent == old(sent) + [Mouse(MouseInput(0, 0, U32(dy), WHEEL))]
    {
      Send(Mouse(MouseInput(0, 0, U32(dy), WHEEL)));
    }

    /** `mouse_move(dx, dy)`: one relative move by the truncated deltas. */
    method MouseMove(dx: real, dy: real)
      modifies this`sent
      ensures sent == old(sent) + [Mouse(MouseInput(I32(Trunc(dx)), I32(Trunc(dy)), 0, MOVE))]
    {
      Send(Mouse(MouseInput(I32(Trunc(dx)), I32(Trunc(dy)), 0, MOVE)));
    }
  }

  /** Each mapped button has distinct down and up flags, and every flag is a different bit. */
  lemma ButtonFlagsDistinct(a: int, b: int)
    requires a in BUTTON_MAPPING && b in BUTTON_MAPPING
    ensures BUTTON_MAPPING[a].0 != BUTTON_MAPPING[b].1
    ensures a != b ==> BUTTON_MAPPING[a].0 != BUTTON_MAPPING[b].0 && BUTTON_MAPPING[a].1 != BUTTON_MAPPING[b].1
  {
  }
}
