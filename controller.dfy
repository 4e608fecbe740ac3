/**
 * routes/controller.py: the `controller` generator of one websocket
 * connection. Each message sent into it is decoded as JSON and used as
 * the keyword arguments of a dispatcher built for the connection; failures
 * are reported back to the client and the loop goes on, except for an
 * exception it does not catch, which ends the generator.
 */
module Controller {
  import opened Wrappers
  import opened Json
  import opened Dispatch
  import opened Seqs

  /** `json.loads`: the value, or the type of the exception it raises. */
  type Decoder = string -> Result<Json>

  /** A `report_error(reason, exception, tb)` call: the reason and the exception's type. */
  datatype Report = Report(reason: string, exception: string)

  /** What one message does: the report made, the handler invoked, the exception that escapes. */
  datatype Step = Step(report: Option<Report>, invoked: Option<(string, Kwargs)>, raised: Option<string>)

  /**
   * The body of the loop for one message: an empty message is skipped; one
   * that does not decode is reported as `invalid_data`; a TypeError from
   * dispatching it as `dispatch(**command)` is reported as
   * `invalid_command`; any other exception escapes. In both directions:
   * skipped exactly when empty, `invalid_data` exactly when it does not
   * decode, `invalid_command` exactly when dispatching raises TypeError,
   * and the generator ends exactly when dispatching raises anything else;
   * a handler is invoked only for a message that decoded.
   */
  function StepOf(decode: Decoder, dispatcher: Dispatcher, message: Option<string>): (r: Step)
    ensures var empty := message.None? || message.value == "";
      (empty ==> r == Step(None, None, None)) &&
      (r.report.Some? && r.report.value.reason == "invalid_data" <==> !empty && decode(message.value).Err?) &&
      (r.report.Some? && r.report.value.reason == "invalid_command" <==>
        !empty && decode(message.value).Ok? && CallWith(dispatcher, decode(message.value).value).result == Err("TypeError")) &&
      (r.raised.Some? <==>
        !empty && decode(message.value).Ok? && CallWith(dispatcher, decode(message.value).value).result.Err? &&
        CallWith(dispatcher, decode(message.value).value).result.error != "TypeError") &&
      (r.invoked.Some? ==> !empty && decode(message.value).Ok?) &&
      (r.report.Some? ==> r.raised.None?)
  {
    if message.None? || message.value == "" then Step(None, None, None)
    else match decode(message.value)
      case Err(e) => Step(Some(Report("invalid_data", e)), None, None)
      case Ok(command) =>
        var d := CallWith(dispatcher, command);
        if d.result.Ok? then Step(None, d.invoked, None)
        else if d.result.error == "TypeError" then Step(Some(Report("invalid_command", "TypeError")), d.invoked, None)
        else Step(None, d.invoked, Some(d.result.error))
  }

  /** What a connection has done: its reports, its handler invocations, and how it ended, if it has. */
  datatype Session = Session(reports: seq<Report>, invoked: seq<(string, Kwargs)>, ended: Option<string>)

  /** One more message handled by a connection in state `before`; an ended one does nothing. */
  function Next(before: Session, s: Step): Session
  {
    if before.ended.Some? then before
    else Session(before.reports + (if s.report.Some? then [s.report.value] else []),
                 before.invoked + (if s.invoked.Some? then [s.invoked.value] else []),
                 s.raised)
  }

  /**
   * The exception of the first message, from the front, whose step
   * raises; None when no step raises.
   */
  function FirstRaised(decode: Decoder, dispatcher: Dispatcher, messages: seq<Option<string>>): (r: Option<string>)
    ensures r.Some? ==> messages != []
    ensures r.None? ==> forall m :: m in messages ==> StepOf(decode, dispatcher, m).raised.None?
  {
    if messages == [] then None
    else
      var first := StepOf(decode, dispatcher, messages[0]).raised;
      if first.Some? then first
      else
        assert messages == [messages[0]] + messages[1..];
        FirstRaised(decode, dispatcher, messages[1..])
  }

  /** `FirstRaised` is the exception of a message whose step raises, and no earlier step raises. */
  lemma {:induction false} FirstRaisedFirst(decode: Decoder, dispatcher: Dispatcher, messages: seq<Option<string>>)
    requires FirstRaised(decode, dispatcher, messages).Some?
    ensures exists i :: (0 <= i < |messages| && StepOf(decode, dispatcher, messages[i]).raised == FirstRaised(decode, dispatcher, messages) &&
      forall m :: m in messages[..i] ==> StepOf(decode, dispatcher, m).raised.None?)
    decreases |messages|
  {
    var r := FirstRaised(decode, dispatcher, messages);
    if StepOf(decode, dispatcher, messages[0]).raised.Some? {
      assert messages[..0] == [];
    } else {
      FirstRaisedFirst(decode, dispatcher, messages[1..]);
      var i :| 0 <= i < |messages[1..]| && StepOf(decode, dispatcher, messages[1..][i]).raised == r &&
        forall m :: m in messages[1..][..i] ==> StepOf(decode, dispatcher, m).raised.None?;
      PrefixCons(messages, i);
    }
  }

  /** The first `i + 1` messages are the first one, then the first `i` of the rest. */
  lemma PrefixCons(messages: seq<Option<string>>, i: nat)
    requires i < |messages| - 1
    ensures messages[..i + 1] == [messages[0]] + messages[1..][..i]
    ensures messages[1..][i] == messages[i + 1]
  {
  }

  /**
   * The messages `messages` sent into a new generator, one after the
   * other; once an exception has ended it, later messages do nothing. It
   * ends with the exception of the first message whose dispatch raised,
   * and runs on while none has.
   */
  function Run(decode: Decoder, dispatcher: Dispatcher, messages: seq<Option<string>>): (r: Session)
    ensures r.ended == FirstRaised(decode, dispatcher, messages)
  {
    if messages == [] then Session([], [], None)
    else
      var init := messages[..|messages| - 1];
      FirstRaisedSnoc(decode, dispatcher, init, messages[|messages| - 1]);
      InitLast(messages);
      Next(Run(decode, dispatcher, init), StepOf(decode, dispatcher, messages[|messages| - 1]))
  }

  /** The first raise over one more message: the earlier one, or else that message's. */
  lemma {:induction false} FirstRaisedSnoc(decode: Decoder, dispatcher: Dispatcher, messages: seq<Option<string>>, m: Option<string>)
    ensures FirstRaised(decode, dispatcher, messages + [m]) ==
      if FirstRaised(decode, dispatcher, messages).Some? then FirstRaised(decode, dispatcher, messages)
      else StepOf(decode, dispatcher, m).raised
    decreases |messages|
  {
    if messages != [] {
      assert (messages + [m])[1..] == messages[1..] + [m];
      FirstRaisedSnoc(decode, dispatcher, messages[1..], m);
    }
  }

  /** Sending one more message to a run is one more step. */
  lemma RunSnoc(decode: Decoder, dispatcher: Dispatcher, messages: seq<Option<string>>, m: Option<string>)
    ensures Run(decode, dispatcher, messages + [m]) == Next(Run(decode, dispatcher, messages), StepOf(decode, dispatcher, m))
  {
    assert (messages + [m])[..|messages|] == messages;
  }

  /** An ended generator stays ended: whatever is sent to it afterwards changes nothing. */
  lemma {:induction false} RunEnded(decode: Decoder, dispatcher: Dispatcher, a: seq<Option<string>>, b: seq<Option<string>>)
    requires Run(decode, dispatcher, a).ended.Some?
    ensures Run(decode, dispatcher, a + b) == Run(decode, dispatcher, a)
    decreases |b|
  {
    if b == [] {
      assert a + b == a;
    } else {
      var init := a + b[..|b| - 1];
      AppendLast(a, b);
      RunEnded(decode, dispatcher, a, b[..|b| - 1]);
      RunSnoc(decode, dispatcher, init, b[|b| - 1]);
    }
  }

  /**
   * Each message adds at most one report and at most one invocation, so
   * a run makes no more of either than it was sent messages.
   */
  lemma {:induction false} RunBounded(decode: Decoder, dispatcher: Dispatcher, messages: seq<Option<string>>)
    ensures |Run(decode, dispatcher, messages).reports| <= |messages|
    ensures |Run(decode, dispatcher, messages).invoked| <= |messages|
  {
    if messages != [] {
      RunBounded(decode, dispatcher, messages[..|messages| - 1]);
    }
  }

  /** The generator of one connection, suspended at its `yield`. */
  class Connection {
    const decode: Decoder
    /** The `Dispatcher(key=..., mouse=...)` created for this connection. */
    const dispatcher: Dispatcher
    /** The `report_error` calls made so far. */
    var reports: seq<Report>
    /** The handler invocations made so far. */
    var invoked: seq<(string, Kwargs)>
    /** None while the generator runs; the exception that ended it. */
    var ended: Option<string>

    /** Starting the generator: a dispatcher with a fresh key handler and a fresh mouse handler. */
    constructor (decode: Decoder, key: Handler, mouse: Handler)
      ensures this.decode == decode && dispatcher.handlers == map["key" := key, "mouse" := mouse]
      ensures reports == [] && invoked == [] && ended.None?
    {
      this.decode := decode;
      dispatcher := Dispatcher(map["key" := key, "mouse" := mouse]);
      reports := [];
      invoked := [];
      ended := None;
    }

    /** The connection's state as a `Session`. */
    function State(): Session
      reads this
    {
      Session(reports, invoked, ended)
    }

    /** `send(message)`: one turn of the loop. */
    method Send(message: Option<string>)
      requires ended.None?
      modifies this`reports, this`invoked, this`ended
      ensures State() == Next(old(State()), StepOf(decode, dispatcher, message))
      ensures |reports| <= |old(reports)| + 1 && |invoked| <= |old(invoked)| + 1
    {
      if message.None? || message.value == "" {
        return;
      }
      var command := decode(message.value);
      if command.Err? {
        reports := reports + [Report("invalid_data", command.error)];
        return;
      }
      var d := CallWith(dispatcher, command.value);
      if d.invoked.Some? {
        invoked := invoked + [d.invoked.value];
      }
      if d.result.Err? {
        if d.result.error == "TypeError" {
          reports := reports + [Report("invalid_command", "TypeError")];
        } else {
          ended := Some(d.result.error);
        }
      }
    }
  }
}
