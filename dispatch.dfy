/**
 * server/dispatchers/__init__.py: a `Dispatcher` holds the handlers it was
 * built with, by keyword, and dispatches a command to the handler of that
 * exact name with the command's data as keyword arguments.
 */
module Dispatch {
  import opened Wrappers
  import opened Json

  /** Keyword arguments, in order. */
  type Kwargs = seq<(string, Json)>

  /** A handler: what calling it with keyword arguments returns, or the exception it raises. */
  type Handler = Kwargs -> Result<Json>

  /** `Dispatcher(**handlers)`: the handlers, by keyword, fixed at construction. */
  datatype Dispatcher = Dispatcher(handlers: map<string, Handler>)

  /** The handler invoked, if any, and what the call returned or raised. */
  datatype Dispatched = Dispatched(invoked: Option<(string, Kwargs)>, result: Result<Json>)

  /**
   * `dispatcher(command, data)`: `handlers[command](**data)`. The handler
   * is looked up first: an unhashable command (a list or a dict) raises
   * TypeError, any other command that is not a handler name KeyError;
   * then data that is not a dict raises TypeError. Only then is the
   * handler invoked, once.
   */
  function Call(d: Dispatcher, command: Json, data: Json): (r: Dispatched)
    ensures r.invoked.Some? <==> command.JStr? && command.s in d.handlers && data.JObj?
    ensures r.invoked.Some? ==>
      r.invoked.value == (command.s, data.fields) && r.result == d.handlers[command.s](data.fields)
    ensures r.invoked.None? ==> r.result == Err("KeyError") || r.result == Err("TypeError")
    ensures command.JStr? && command.s !in d.handlers ==> r == Dispatched(None, Err("KeyError"))
  {
    if command.JArr? || command.JObj? then Dispatched(None, Err("TypeError"))
    else if !command.JStr? || command.s !in d.handlers then Dispatched(None, Err("KeyError"))
    else if !data.JObj? then Dispatched(None, Err("TypeError"))
    else Dispatched(Some((command.s, data.fields)), d.handlers[command.s](data.fields))
  }

  /**
   * The whole command string is the key: two dispatchers that agree on
   * the handler of that one name (or both lack it) dispatch it alike,
   * whatever their other handlers.
   */
  lemma CallUsesOnlyItsHandler(d1: Dispatcher, d2: Dispatcher, name: string, data: Json)
    requires name in d1.handlers <==> name in d2.handlers
    requires name in d1.handlers ==> d1.handlers[name] == d2.handlers[name]
    ensures Call(d1, JStr(name), data) == Call(d2, JStr(name), data)
  {
  }

  /**
   * `dispatcher(**command)`: a decoded message used as the keyword
   * arguments `command` and `data`. Anything but a dict with exactly those
   * two keys raises TypeError before the dispatcher runs.
   */
  function CallWith(d: Dispatcher, message: Json): (r: Dispatched)
    ensures !message.JObj? ==> r == Dispatched(None, Err("TypeError"))
    ensures r.invoked.Some? ==> message.JObj? && KeySet(message.fields) == {"command", "data"}
    ensures message.JObj? && UniqueKeys(message.fields) && KeySet(message.fields) == {"command", "data"} ==>
      r == Call(d, Get(message.fields, "command"), Get(message.fields, "data"))
  {
    if !message.JObj? || KeySet(message.fields) != {"command", "data"} then Dispatched(None, Err("TypeError"))
    else Call(d, Get(message.fields, "command"), Get(message.fields, "data"))
  }
}
