/**
 * The keyboard command handler of the server (server/dispatchers/keyboard.py).
 * It owns an opaque backend state, None at first, and threads it through the
 * event backend's `key_down`/`key_up`: each call receives the current state
 * and its return value becomes the next one.
 */
module ServerKeyboard {
  import opened Wrappers

  /** The arguments of a key command. */
  datatype KeyArgs = KeyArgs(name: Option<string>, keysym: Option<int>, symbol: Option<string>)

  /** A call made into the event backend, with the state it was given. */
  datatype BackendCall<S> = KeyDownCall(state: Option<S>, args: KeyArgs) | KeyUpCall(state: Option<S>, args: KeyArgs)

  /**
   * The handler. `keyDown` and `keyUp` stand for `event.key_down` and
   * `event.key_up`: a new state, or the exception they raise.
   */
  class Handler<S> {
    const keyDown: (Option<S>, KeyArgs) -> Result<Option<S>>
    const keyUp: (Option<S>, KeyArgs) -> Result<Option<S>>
    var state: Option<S>
    /** The backend calls made so far. */
    var calls: seq<BackendCall<S>>

    constructor (keyDown: (Option<S>, KeyArgs) -> Result<Option<S>>, keyUp: (Option<S>, KeyArgs) -> Result<Option<S>>)
      ensures this.keyDown == keyDown && this.keyUp == keyUp
      ensures state == None && calls == []
    {
      this.keyDown := keyDown;
      this.keyUp := keyUp;
      state := None;
      calls := [];
    }

    /**
     * `down(name, keysym, symbol)`: one backend call with the current state;
     * its result replaces the state, and when it raises the state stays.
     */
    method Down(args: KeyArgs) returns (r: Result<()>)
      modifies this`state, this`calls
      ensures calls == old(calls) + [KeyDownCall(old(state), args)]
      ensures r.Ok? <==> keyDown(old(state), args).Ok?
      ensures state == if r.Ok? then keyDown(old(state), args).value else old(state)
    {
      calls := calls + [KeyDownCall(state, args)];
      var next := keyDown(state, args);
      if next.Err? {
        return Err(next.error);
      }
      state := next.value;
      r := Ok(());
    }

    /**
     * `up(name, keysym, symbol)`: one backend call with the current state;
     * its result replaces the state, and when it raises the state stays.
     */
    method Up(args: KeyArgs) returns (r: Result<()>)
      modifies this`state, this`calls
      ensures calls == old(calls) + [KeyUpCall(old(state), args)]
      ensures r.Ok? <==> keyUp(old(state), args).Ok?
      ensures state == if r.Ok? then keyUp(old(state), args).value else old(state)
    {
      calls := calls + [KeyUpCall(state, args)];
      var next := keyUp(state, args);
      if next.Err? {
        return Err(next.error);
      }
      state := next.value;
      r := Ok(());
    }
  }
}
