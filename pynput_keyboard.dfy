/**
 * The pynput-based keyboard command handler (dispatchers/keyboard.py): a key
 * name from the client is classified as a dead key, a named special key
 * written `<name>`, or a literal character string, and the result is
 * pressed or released on a pynput keyboard controller.
 */
module PynputKeyboard {
  import opened Wrappers

  /** What `keycode` hands to the controller. */
  datatype KeyValue =
    | DeadKey(name: string)      // KeyCode.from_dead(name)
    | SpecialKey(key: string)    // a member of pynput.keyboard.Key
    | Literal(name: string)      // the name itself

  /** A call received by the pynput keyboard controller. */
  datatype KeyCall = PressKey(key: KeyValue) | ReleaseKey(key: KeyValue)

  /** `name` is written `<...>`: its first character is '<' and its last is '>'. */
  predicate Bracketed(name: string)
    requires |name| > 0
  {
    name[0] == '<' && name[|name| - 1] == '>'
  }

  /**
   * `keycode(name, is_dead)`. A dead key is taken as it is; otherwise an
   * empty name raises IndexError, a bracketed name is looked up in
   * `keys` (KeyError when absent), and any other name is passed through.
   */
  function Keycode(keys: set<string>, name: string, isDead: bool): (r: Result<KeyValue>)
    ensures isDead ==> r == Ok(DeadKey(name))
    ensures !isDead && name == [] ==> r.Err?
    ensures !isDead && name != [] && !Bracketed(name) ==> r == Ok(Literal(name))
    ensures !isDead && name != [] && Bracketed(name) ==>
      |name| >= 2 && (r.Ok? <==> name[1..|name| - 1] in keys)
    ensures r.Ok? && r.value.SpecialKey? ==> r.value.key in keys && name == "<" + r.value.key + ">"
  {
    if isDead then Ok(DeadKey(name))
    else if name == [] then Err("IndexError")
    else if Bracketed(name) then
      // A one-character name cannot be both '<' and '>', so `name[1:-1]` is well formed
      if name[1..|name| - 1] in keys then Ok(SpecialKey(name[1..|name| - 1])) else Err("KeyError")
    else Ok(Literal(name))
  }

  /** How the client writes a key value that is not dead. */
  function KeyName(k: KeyValue): string
  {
    match k
    case SpecialKey(key) => "<" + key + ">"
    case DeadKey(name) => name
    case Literal(name) => name
  }

  /** Every special key and every unbracketed literal reads back from its name. */
  lemma KeycodeKeyName(keys: set<string>, k: KeyValue)
    requires k.SpecialKey? ==> k.key in keys
    requires k.Literal? ==> k.name != [] && !Bracketed(k.name)
    requires !k.DeadKey?
    ensures Keycode(keys, KeyName(k), false) == Ok(k)
  {
    if k.SpecialKey? {
      var n := KeyName(k);
      assert n[1..|n| - 1] == k.key;
    }
  }

  class Handler {
    /** The members of `pynput.keyboard.Key`. */
    const keys: set<string>
    /** What the controller `self.d` has received. */
    var calls: seq<KeyCall>

    constructor (keys: set<string>)
      ensures this.keys == keys && calls == []
    {
      this.keys := keys;
      calls := [];
    }

    /** `down(name, is_dead=False)`: presses exactly `keycode(name, is_dead)`; an error presses nothing. */
    method Down(name: string, isDead: bool) returns (r: Result<()>)
      modifies this`calls
      ensures r.Ok? <==> Keycode(keys, name, isDead).Ok?
      ensures calls == old(calls) + (if r.Ok? then [PressKey(Keycode(keys, name, isDead).value)] else [])
    {
      var k := Keycode(keys, name, isDead);
      if k.Err? {
        return Err(k.error);
      }
      calls := calls + [PressKey(k.value)];
      r := Ok(());
    }

    /** `up(name, is_dead=False)`: releases exactly `keycode(name, is_dead)`; an error releases nothing. */
    method Up(name: string, isDead: bool) returns (r: Result<()>)
      modifies this`calls
      ensures r.Ok? <==> Keycode(keys, name, isDead).Ok?
      ensures calls == old(calls) + (if r.Ok? then [ReleaseKey(Keycode(keys, name, isDead).value)] else [])
    {
      var k := Keycode(keys, name, isDead);
      if k.Err? {
        return Err(k.error);
      }
      calls := calls + [ReleaseKey(k.value)];
      r := Ok(());
    }
  }
}
