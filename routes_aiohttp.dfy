/**
 * routes/_routes_aiohttp.py: registering bottle-style routes with aiohttp.
 * A route's path template `<name>` or `<name:filter>` becomes aiohttp's
 * `{name}` (or `{name:[^{}]+}` for the `path` filter); a GET handler's
 * result becomes a response; a websocket handler is a generator that is
 * primed and then sent every text message until the socket sends
 * something else or the generator fails.
 */
module RoutesAiohttp {
  import opened Wrappers
  import opened Json
  import opened Controller
  import Dispatch

  // Path templates: BOTTLE_RE = `<([^:>]+)(?::([^>]+))?>` and `replacer`.

  /** The end of the longest run of characters other than `:` and `>` from `i`. */
  function NameEnd(p: string, i: nat): (j: nat)
    requires i <= |p|
    ensures i <= j <= |p|
    ensures forall k :: i <= k < j ==> p[k] != ':' && p[k] != '>'
    ensures j < |p| ==> p[j] == ':' || p[j] == '>'
    decreases |p| - i
  {
    if i == |p| || p[i] == ':' || p[i] == '>' then i else NameEnd(p, i + 1)
  }

  /** The end of the longest run of characters other than `>` from `i`. */
  function FilterEnd(p: string, i: nat): (j: nat)
    requires i <= |p|
    ensures i <= j <= |p|
    ensures forall k :: i <= k < j ==> p[k] != '>'
    ensures j < |p| ==> p[j] == '>'
    decreases |p| - i
  {
    if i == |p| || p[i] == '>' then i else FilterEnd(p, i + 1)
  }

  /** A match of the pattern: the name, the filter if one is given, and the length matched. */
  datatype Match = Match(name: string, filter: Option<string>, length: nat)

  /**
   * The pattern matched at the start of `p`: `<`, a non-empty name, an
   * optional `:` and non-empty filter, and `>`. Neither run can give back
   * characters to let the rest match, so the longest runs decide.
   */
  function MatchStart(p: string): (r: Option<Match>)
    ensures r.Some? ==> 3 <= r.value.length <= |p|
  {
    if p == [] || p[0] != '<' then None
    else
      var n := NameEnd(p, 1);
      if n == 1 || n == |p| then None
      else if p[n] == '>' then Some(Match(p[1..n], None, n + 1))
      else
        var f := FilterEnd(p, n + 1);
        if f == n + 1 || f == |p| then None
        else Some(Match(p[1..n], Some(p[n + 1..f]), f + 1))
  }

  /** `replacer(m)`: the `path` filter keeps a pattern; any other filter, or none, is dropped. */
  function Replacement(m: Match): string
  {
    if m.filter == Some("path") then "{" + m.name + ":[^{}]+}" else "{" + m.name + "}"
  }

  /** `BOTTLE_RE.sub(replacer, p)`: every match, left to right and not overlapping, replaced. */
  function Rewrite(p: string): string
    decreases |p|
  {
    if p == [] then ""
    else match MatchStart(p)
      case Some(m) => Replacement(m) + Rewrite(p[m.length..])
      case None => [p[0]] + Rewrite(p[1..])
  }

  /** A template that does not start with `<` keeps its first character. */
  lemma RewriteStep(p: string)
    requires p != [] && p[0] != '<'
    ensures Rewrite(p) == [p[0]] + Rewrite(p[1..])
  {
    assert MatchStart(p) == None;
  }

  /** Text before any `<` is copied unchanged. */
  lemma {:induction false} RewritePlainPrefix(a: string, q: string)
    requires '<' !in a
    ensures Rewrite(a + q) == a + Rewrite(q)
    decreases |a|
  {
    if a != [] {
      var p := a + q;
      assert a == [a[0]] + a[1..];
      assert p[0] == a[0] && p[1..] == a[1..] + q;
      RewriteStep(p);
      RewritePlainPrefix(a[1..], q);
    } else {
      assert a + q == q;
    }
  }

  /** A template without `<` is left as it is. */
  lemma RewritePlain(a: string)
    requires '<' !in a
    ensures Rewrite(a) == a
  {
    RewritePlainPrefix(a, "");
    assert a + "" == a;
  }

  /** A name the pattern accepts: non-empty, without `:` or `>`. */
  predicate IsName(name: string)
  {
    name != [] && ':' !in name && '>' !in name
  }

  /** The pattern matches all of `<name>` at the start of a template. */
  lemma MatchName(name: string, b: string)
    requires IsName(name)
    ensures MatchStart("<" + name + ">" + b) == Some(Match(name, None, |name| + 2))
  {
    var q := "<" + name + ">" + b;
    var n := NameEnd(q, 1);
    assert q[1 + |name|] == '>';
    assert n == 1 + |name|;
    assert q[1..n] == name;
  }

  /** The pattern matches all of `<name:filter>` at the start of a template. */
  lemma MatchFiltered(name: string, filter: string, b: string)
    requires IsName(name) && filter != [] && '>' !in filter
    ensures MatchStart("<" + name + ":" + filter + ">" + b) == Some(Match(name, Some(filter), |name| + |filter| + 3))
  {
    var q := "<" + name + ":" + filter + ">" + b;
    var n := NameEnd(q, 1);
    assert q[1 + |name|] == ':';
    assert n == 1 + |name|;
    var f := FilterEnd(q, n + 1);
    assert q[n + 1 + |filter|] == '>';
    assert f == n + 1 + |filter|;
    assert q[1..n] == name && q[n + 1..f] == filter;
  }

  /** A template that starts with `<name>` starts its rewrite with `{name}`. */
  lemma RewriteNameStart(name: string, b: string)
    requires IsName(name)
    ensures Rewrite("<" + name + ">" + b) == "{" + name + "}" + Rewrite(b)
  {
    var q := "<" + name + ">" + b;
    MatchName(name, b);
    assert q[|name| + 2..] == b;
  }

  /** `<name>` becomes `{name}`. */
  lemma RewriteName(a: string, name: string, b: string)
    requires '<' !in a && IsName(name)
    ensures Rewrite(a + ("<" + name + ">" + b)) == a + ("{" + name + "}" + Rewrite(b))
  {
    RewritePlainPrefix(a, "<" + name + ">" + b);
    RewriteNameStart(name, b);
  }

  /** A template that starts with `<name:filter>` starts its rewrite with the filter's replacement. */
  lemma RewriteFilteredStart(name: string, filter: string, b: string)
    requires IsName(name) && filter != [] && '>' !in filter
    ensures Rewrite("<" + name + ":" + filter + ">" + b) ==
      (if filter == "path" then "{" + name + ":[^{}]+}" else "{" + name + "}") + Rewrite(b)
  {
    var q := "<" + name + ":" + filter + ">" + b;
    MatchFiltered(name, filter, b);
    assert q[|name| + |filter| + 3..] == b;
  }

  /** `<name:filter>` becomes `{name:[^{}]+}` for the `path` filter and `{name}` for any other. */
  lemma RewriteFiltered(a: string, name: string, filter: string, b: string)
    requires '<' !in a && IsName(name) && filter != [] && '>' !in filter
    ensures Rewrite(a + ("<" + name + ":" + filter + ">" + b)) ==
      a + ((if filter == "path" then "{" + name + ":[^{}]+}" else "{" + name + "}") + Rewrite(b))
  {
    RewritePlainPrefix(a, "<" + name + ":" + filter + ">" + b);
    RewriteFilteredStart(name, filter, b);
  }

  // GET handlers.

  /** What a handler returns: a dict, a response, or anything else. */
  datatype Returned = Dict(value: Json) | Resp(body: string, status: nat, headers: seq<(string, string)>) | Other

  /** The response the wrapper gives aiohttp. */
  datatype Response = Response(status: nat, contentType: Option<string>, body: string, headers: seq<(string, string)>)

  /**
   * The GET `wrapper`: a dict becomes a 200 `application/json` response
   * of its `json.dumps` (`dumps`); a response is passed on with its body,
   * status and headers; anything else fails on `response.body`, and like
   * an exception from the handler becomes HTTPInternalServerError (500).
   */
  function Wrap(dumps: Json -> string, handled: Result<Returned>): (r: Response)
    ensures r.status == 200 && r.contentType == Some("application/json") <==> handled.Ok? && handled.value.Dict?
    ensures handled.Ok? && handled.value.Dict? ==> r.body == dumps(handled.value.value)
    ensures handled.Ok? && handled.value.Resp? ==>
      r == Response(handled.value.status, None, handled.value.body, handled.value.headers)
    ensures handled.Err? || handled.value.Other? ==> r == Response(500, None, "", [])
  {
    match handled
    case Err(_) => Response(500, None, "", [])
    case Ok(Dict(value)) => Response(200, Some("application/json"), dumps(value), [])
    case Ok(Resp(body, status, headers)) => Response(status, None, body, headers)
    case Ok(Other) => Response(500, None, "", [])
  }

  // Websocket handlers.

  /** `ws.receive()`: a text message or a message of any other type. */
  datatype Received = Text(data: string) | NotText

  /** What is sent to the generator for each message: its text (only text messages are ever sent). */
  function Texts(received: seq<Received>): (r: seq<Option<string>>)
    ensures |r| == |received|
  {
    if received == [] then []
    else
      var last := received[|received| - 1];
      Texts(received[..|received| - 1]) + [if last.Text? then Some(last.data) else None]
  }

  /**
   * The websocket `wrapper`, after `next(dispatcher)` has primed the
   * generator `conn`: every text message is sent to it, and the loop
   * stops at the first message that is not text or the first send that
   * raises. Returns how many messages were sent.
   */
  method Pump(conn: Connection, received: seq<Received>) returns (sent: nat)
    requires conn.State() == Session([], [], None)
    modifies conn
    ensures sent <= |received| && forall i :: 0 <= i < sent ==> received[i].Text?
    ensures conn.State() == Run(conn.decode, conn.dispatcher, Texts(received[..sent]))
    ensures sent > 0 ==> Run(conn.decode, conn.dispatcher, Texts(received[..sent - 1])).ended.None?
    ensures sent < |received| ==> conn.ended.Some? || received[sent].NotText?
  {
    sent := 0;
    while sent < |received| && received[sent].Text? && conn.ended.None?
      invariant sent <= |received|
      invariant AllText(received[..sent])
      invariant conn.State() == Run(conn.decode, conn.dispatcher, Texts(received[..sent]))
      invariant sent > 0 ==> Run(conn.decode, conn.dispatcher, Texts(received[..sent - 1])).ended.None?
    {
      ghost var s0 := conn.State();
      conn.Send(Some(received[sent].data));
      PumpStep(conn.decode, conn.dispatcher, received, sent, s0, conn.State());
      sent := sent + 1;
    }
    AllTextAt(received, sent);
  }

  /** Every message of `rs` is a text message. */
  predicate AllText(rs: seq<Received>)
  {
    rs == [] || (rs[|rs| - 1].Text? && AllText(rs[..|rs| - 1]))
  }

  /** `AllText` of a prefix says that each message in it is text. */
  lemma {:induction false} AllTextAt(received: seq<Received>, n: nat)
    requires n <= |received| && AllText(received[..n])
    ensures forall i :: 0 <= i < n ==> received[i].Text?
  {
    if n > 0 {
      assert received[..n][..n - 1] == received[..n - 1];
      AllTextAt(received, n - 1);
    }
  }

  /** The connection after one more text message is the run over one more message. */
  lemma PumpStep(decode: Decoder, dispatcher: Dispatch.Dispatcher, received: seq<Received>, n: nat, s0: Session, s1: Session)
    requires n < |received| && received[n].Text?
    requires s0 == Run(decode, dispatcher, Texts(received[..n])) && s0.ended.None?
    requires s1 == Next(s0, StepOf(decode, dispatcher, Some(received[n].data)))
    ensures s1 == Run(decode, dispatcher, Texts(received[..n + 1]))
    ensures AllText(received[..n]) ==> AllText(received[..n + 1])
  {
    TextsNext(received, n);
    assert AllText(received[..n + 1]) <== AllText(received[..n]) by {
      assert received[..n + 1][..n] == received[..n];
    }
    RunSnoc(decode, dispatcher, Texts(received[..n]), Some(received[n].data));
  }

  /** One more message received: one more text sent. */
  lemma TextsNext(received: seq<Received>, n: nat)
    requires n < |received| && received[n].Text?
    ensures Texts(received[..n + 1]) == Texts(received[..n]) + [Some(received[n].data)]
  {
    assert received[..n + 1][..n] == received[..n];
  }
}
