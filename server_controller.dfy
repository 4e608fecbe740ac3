/**
 * server/routes/controller.py: the receive loop of the `/controller`
 * websocket. Every message is decoded as JSON and handed to `dispatch`;
 * a message that does not decode is reported as `invalid_data`, a
 * KeyError, ValueError or TypeError from `dispatch` as `invalid_command`,
 * any other exception as `internal_error`, and the loop goes on until the
 * socket closes or fails.
 *
 * As written, the handlers of those three failures call `sys.exc_info()`
 * and `report_error` calls `traceback.extract_tb`, but the module imports
 * neither `sys` nor `traceback`: the first failing message raises
 * NameError, which no handler catches, and the connection ends without a
 * report. `LoopAsWritten` models that; `Serve` is the loop as intended.
 */
module ServerController {
  import opened Wrappers
  import opened Json
  import opened Controller

  /** `ws.receive()`: a message, None once the socket has closed, or a WebSocketError. */
  datatype Received = Text(s: string) | Closed | Broken

  /** `dispatch(command)`: what it returns, or the type of the exception it raises. */
  type Dispatch = Json -> Result<Json>

  /** The exception types reported as `invalid_command`. */
  predicate CommandError(e: string)
  {
    e == "KeyError" || e == "ValueError" || e == "TypeError"
  }

  /**
   * The report one message leads to, if any. Every failure is reported,
   * and under the right reason: in both directions, `invalid_data` for a
   * message that does not decode, `invalid_command` for a KeyError,
   * ValueError or TypeError from `dispatch`, `internal_error` for any
   * other exception; the report carries the exception's type.
   */
  function Classify(decode: Decoder, dispatch: Dispatch, m: string): (r: Option<Report>)
    ensures (r.None? <==> decode(m).Ok? && dispatch(decode(m).value).Ok?) &&
      (r.Some? && r.value.reason == "invalid_data" <==> decode(m).Err?) &&
      (r.Some? && r.value.reason == "invalid_command" <==>
        decode(m).Ok? && dispatch(decode(m).value).Err? && CommandError(dispatch(decode(m).value).error)) &&
      (r.Some? && r.value.reason == "internal_error" <==>
        decode(m).Ok? && dispatch(decode(m).value).Err? && !CommandError(dispatch(decode(m).value).error)) &&
      (r.Some? && decode(m).Err? ==> r.value.exception == decode(m).error) &&
      (r.Some? && decode(m).Ok? ==> r.value.exception == dispatch(decode(m).value).error)
  {
    match decode(m)
    case Err(e) => Some(Report("invalid_data", e))
    case Ok(command) =>
      match dispatch(command)
      case Ok(_) => None
      case Err(e) => Some(Report(if CommandError(e) then "invalid_command" else "internal_error", e))
  }

  /** The reports of the messages `msgs`, handled one after the other. */
  function Reports(decode: Decoder, dispatch: Dispatch, msgs: seq<string>): seq<Report>
  {
    if msgs == [] then []
    else
      var last := Classify(decode, dispatch, msgs[|msgs| - 1]);
      Reports(decode, dispatch, msgs[..|msgs| - 1]) + (if last.Some? then [last.value] else [])
  }

  /** The commands handed to `dispatch` for the messages `msgs`, in order. */
  function Dispatched(decode: Decoder, msgs: seq<string>): seq<Json>
  {
    if msgs == [] then []
    else
      var last := decode(msgs[|msgs| - 1]);
      Dispatched(decode, msgs[..|msgs| - 1]) + (if last.Ok? then [last.value] else [])
  }

  /**
   * A failure never stops the loop: the reports of two runs of messages,
   * one after the other, are the reports of the first run followed by
   * those of the second.
   */
  lemma {:induction false} ReportsAppend(decode: Decoder, dispatch: Dispatch, a: seq<string>, b: seq<string>)
    ensures Reports(decode, dispatch, a + b) == Reports(decode, dispatch, a) + Reports(decode, dispatch, b)
    decreases |b|
  {
    if b == [] {
      assert a + b == a;
    } else {
      var c := a + b;
      assert c[..|c| - 1] == a + b[..|b| - 1];
      assert c[|c| - 1] == b[|b| - 1];
      ReportsAppend(decode, dispatch, a, b[..|b| - 1]);
    }
  }

  /** The leading messages of `received`, up to the first close or socket error. */
  function Leading(received: seq<Received>): (r: seq<string>)
    ensures |r| <= |received|
    ensures forall i :: 0 <= i < |r| ==> received[i] == Text(r[i])
    ensures |r| < |received| ==> !received[|r|].Text?
  {
    if received == [] || !received[0].Text? then []
    else [received[0].s] + Leading(received[1..])
  }

  /**
   * `controller()`: without a websocket, the request is aborted with 400;
   * otherwise the loop handles each message up to the first close or
   * socket error, reports every failure and dispatches every message that
   * decodes.
   */
  method Serve(hasSocket: bool, decode: Decoder, dispatch: Dispatch, received: seq<Received>)
    returns (r: Result<()>, reports: seq<Report>, dispatched: seq<Json>)
    ensures !hasSocket ==> r == Err("HTTPError 400") && reports == [] && dispatched == []
    ensures hasSocket ==> r == Ok(())
    ensures hasSocket ==> reports == Reports(decode, dispatch, Leading(received))
    ensures hasSocket ==> dispatched == Dispatched(decode, Leading(received))
  {
    reports, dispatched := [], [];
    if !hasSocket {
      return Err("HTTPError 400"), reports, dispatched;
    }
    ghost var lead := Leading(received);
    var i := 0;
    while i < |received| && received[i].Text?
      invariant 0 <= i <= |lead| && lead[..i] == Leading(received)[..i]
      invariant reports == Reports(decode, dispatch, lead[..i])
      invariant dispatched == Dispatched(decode, lead[..i])
    {
      var message := received[i].s;
      assert lead[..i + 1][..i] == lead[..i] && lead[..i + 1][i] == message;
      var command := decode(message);
      if command.Err? {
        reports := reports + [Report("invalid_data", command.error)];
      } else {
        dispatched := dispatched + [command.value];
        var result := dispatch(command.value);
        if result.Err? {
          var reason := if CommandError(result.error) then "invalid_command" else "internal_error";
          reports := reports + [Report(reason, result.error)];
        }
      }
      i := i + 1;
    }
    assert lead[..i] == lead;
    r := Ok(());
  }

  /**
   * The loop as written, on the leading messages: the commands dispatched
   * until the first failing message, where NameError ends the connection.
   */
  function LoopAsWritten(decode: Decoder, dispatch: Dispatch, msgs: seq<string>): Result<seq<Json>>
  {
    if msgs == [] then Ok([])
    else match decode(msgs[0])
      case Err(_) => Err("NameError")
      case Ok(command) =>
        if dispatch(command).Err? then Err("NameError")
        else match LoopAsWritten(decode, dispatch, msgs[1..])
          case Err(e) => Err(e)
          case Ok(rest) => Ok([command] + rest)
  }

  /**
   * A message that does not decode, such as `x`, followed by any valid
   * ones: as written the connection ends with NameError and nothing is
   * reported or dispatched, where the intended loop reports `invalid_data`
   * and goes on to dispatch the rest.
   */
  lemma AsWrittenEndsOnBadData(decode: Decoder, dispatch: Dispatch, m: string, rest: seq<string>)
    requires decode(m).Err?
    ensures LoopAsWritten(decode, dispatch, [m] + rest) == Err("NameError")
    ensures |Reports(decode, dispatch, [m] + rest)| >= 1 &&
      Reports(decode, dispatch, [m] + rest)[0] == Report("invalid_data", decode(m).error)
  {
    assert ([m] + rest)[0] == m && ([m] + rest)[1..] == rest;
    ReportsAppend(decode, dispatch, [m], rest);
    assert [m][..0] == [];
  }
}
