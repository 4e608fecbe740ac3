/**
 * status.py: the application's configuration enum, whose members describe
 * the configuration values, and `Status`, which owns a notifier, a store
 * filled from keyword arguments and one `Value` per configuration member,
 * all sharing that store and notifier.
 */
module Status {
  import opened Wrappers
  import opened Json
  import opened Strings
  import opened Store
  import Notifier
  import opened Configuration
  import Value

  /** `str(x)`, as `format` writes a value read from the store. */
  function Str(j: Json): string
    decreases j, 2
  {
    match j
    case JNull => "None"
    case JBool(b) => if b then "True" else "False"
    case JInt(i) => IntToString(i)
    case JStr(s) => s
    case JArr(_) => "[" + ReprItems(j, 0) + "]"
    case JObj(_) => "{" + ReprFields(j, 0) + "}"
  }

  /** `repr(x)` of a list item or dict value: strings are quoted. */
  function Repr(j: Json): string
    decreases j, 3
  {
    if j.JStr? then "'" + j.s + "'" else Str(j)
  }

  function ReprItems(a: Json, i: nat): string
    requires a.JArr? && i <= |a.items|
    decreases a, 1, |a.items| - i
  {
    if i == |a.items| then ""
    else (if i > 0 then ", " else "") + Repr(a.items[i]) + ReprItems(a, i + 1)
  }

  function ReprFields(a: Json, i: nat): string
    requires a.JObj? && i <= |a.fields|
    decreases a, 1, |a.fields| - i
  {
    if i == |a.fields| then ""
    else
      assert a.fields[i] in a.fields;
      (if i > 0 then ", " else "") + "'" + a.fields[i].0 + "': " + Repr(a.fields[i].1) + ReprFields(a, i + 1)
  }

  const HOST := "server.host"
  const PORT := "server.port"

  /** `'http://{}:{}/'.format(host, port)`. */
  function FormatUrl(host: Json, port: Json): (url: string)
    ensures StartsWith(url, "http://") && EndsWith(url, "/")
  {
    var url := "http://" + Str(host) + ":" + Str(port) + "/";
    assert url[..7] == "http://";
    url
  }

  /**
   * The default of `server.url`: the URL of the values stored under
   * `server.host` and `server.port`; a ValueError from either `get`
   * propagates.
   */
  function ServerUrl(data: Json): (r: Result<Json>)
    ensures r.Err? <==> Lookup(data, Path(HOST)).Err? || Lookup(data, Path(PORT)).Err?
    ensures r.Err? ==> r.error == "ValueError"
    ensures r.Ok? ==> r.value.JStr? && StartsWith(r.value.s, "http://") && EndsWith(r.value.s, "/")
  {
    match Lookup(data, Path(HOST))
    case Err(e) => Err(e)
    case Ok(host) =>
      match Lookup(data, Path(PORT))
      case Err(e) => Err(e)
      case Ok(port) => Ok(JStr(FormatUrl(host, port)))
  }

  /**
   * With a host name without a colon and an integer port, the URL holds
   * exactly the two, split by its one colon.
   */
  lemma UrlParts(host: string, port: int)
    requires ':' !in host
    ensures var url := FormatUrl(JStr(host), JInt(port));
      Split(url[7..|url| - 1], ":") == [host, IntToString(port)]
  {
    var p := IntToString(port);
    var middle := host + ":" + p;
    assert Str(JStr(host)) == host && Str(JInt(port)) == p;
    var url := "http://" + host + ":" + p + "/";
    assert FormatUrl(JStr(host), JInt(port)) == url;
    assert url == "http://" + middle + "/";
    assert url[7..|url| - 1] == middle;
    NoColonInInt(port);
    assert Join([host, p], [':']) == middle;
    SplitJoin([host, p], ':');
  }

  /** `str(i)` of an integer holds no colon. */
  lemma NoColonInInt(i: int)
    ensures ':' !in IntToString(i)
  {
    var digits := NatToString(if i < 0 then -i else i);
    assert forall k :: 0 <= k < |digits| ==> digits[k] != ':';
    assert IntToString(i) == if i < 0 then "-" + digits else digits;
  }

  /** `str(n)` of each part of a version tuple. */
  function DigitStrings(version: seq<nat>): (r: seq<string>)
    ensures |r| == |version|
    ensures forall i :: 0 <= i < |r| ==> r[i] == NatToString(version[i])
  {
    if version == [] then [] else [NatToString(version[0])] + DigitStrings(version[1..])
  }

  /**
   * The default of `application.version`: `'.'.join(str(v) for v in
   * version)`, made of digits and dots only, and the number alone for a
   * one-part version.
   */
  function VersionString(version: seq<nat>): (r: string)
    ensures forall k :: 0 <= k < |r| ==> IsAsciiDigit(r[k]) || r[k] == '.'
    ensures |version| == 1 ==> r == NatToString(version[0])
  {
    JoinDigits(DigitStrings(version));
    Join(DigitStrings(version), ".")
  }

  /** Joining strings of digits with dots gives digits and dots only. */
  lemma {:induction false} JoinDigits(parts: seq<string>)
    requires forall i :: 0 <= i < |parts| ==> forall k :: 0 <= k < |parts[i]| ==> IsAsciiDigit(parts[i][k])
    ensures forall k :: 0 <= k < |Join(parts, ".")| ==> IsAsciiDigit(Join(parts, ".")[k]) || Join(parts, ".")[k] == '.'
  {
    if |parts| > 1 {
      JoinDigits(parts[1..]);
      var rest := Join(parts[1..], ".");
      var whole := Join(parts, ".");
      assert whole == parts[0] + "." + rest;
      forall k | 0 <= k < |whole|
        ensures IsAsciiDigit(whole[k]) || whole[k] == '.'
      {
        if k > |parts[0]| {
          assert whole[k] == rest[k - |parts[0]| - 1];
        }
      }
    }
  }

  /** Splitting the version string on dots gives back the decimal parts, one per number. */
  lemma VersionParts(version: seq<nat>)
    requires version != []
    ensures Split(VersionString(version), ".") == DigitStrings(version)
  {
    var parts := DigitStrings(version);
    forall i | 0 <= i < |parts| ensures '.' !in parts[i] {
      assert forall k :: 0 <= k < |parts[i]| ==> IsAsciiDigit(parts[i][k]);
    }
    SplitJoin(parts, '.');
  }

  /**
   * A member of a configuration enum: its attribute name and its value,
   * the tuple `(name, description[, readonly[, default]])`.
   */
  datatype Member = Member(attribute: string, item: string, description: string,
                           readonly: Option<bool>, default: Option<Getter>)

  /** `Value(*member.value)` is read-only unless the tuple says otherwise. */
  predicate ReadOnly(m: Member)
  {
    m.readonly.None? || m.readonly.value
  }

  /** An enum's members have distinct names. */
  predicate UniqueAttributes(configuration: seq<Member>)
  {
    forall i, j :: 0 <= i < j < |configuration| ==> configuration[i].attribute != configuration[j].attribute
  }

  /**
   * The application's `Configuration` enum, for the application version
   * `version`: the version, the server host and port, and the server URL,
   * every one read-only.
   */
  function Members(version: seq<nat>): (r: seq<Member>)
    ensures UniqueAttributes(r)
    ensures forall i :: 0 <= i < |r| ==> ReadOnly(r[i])
    ensures |r| == 4 && r[1].item == HOST && r[2].item == PORT
    ensures r[0].default.Some? && r[0].default.value(JObj([])) == Ok(JStr(VersionString(version)))
    ensures r[3].default.Some? && forall data :: r[3].default.value(data) == ServerUrl(data)
  {
    var versionGetter: Getter := _ => Ok(JStr(VersionString(version)));
    [Member("APPLICATION_VERSION", "application.version", "The version of this application", Some(true), Some(versionGetter)),
     Member("SERVER_HOST", HOST, "The server hostname", None, None),
     Member("SERVER_PORT", PORT, "The port of the server", None, None),
     Member("SERVER_URL", "server.url", "The URL of the server", Some(true), Some(ServerUrl))]
  }

  /** `v` is the `Value(*m.value)` of configuration member `m`. */
  ghost predicate Describes(v: Value.Value, m: Member)
  {
    v.name == m.item && v.description == m.description && v.readonly == ReadOnly(m) &&
    (m.default.Some? ==> v.getter == m.default.value) &&
    (m.default.None? ==> forall data :: v.getter(data) == Ok(JNull))
  }

  class Status {
    const notifier: Notifier.Notifier
    const store: Store
    /** `_values`, in configuration order. */
    var values: seq<Value.Value>
    /** The attributes `setattr` gives the instance, by configuration member name. */
    var attributes: map<string, Value.Value>

    /** Every value shares the status's store and notifier, and every attribute is one of the values. */
    ghost predicate Valid()
      reads this, store, notifier
    {
      store.notifier == notifier && store.Valid() && notifier.Valid() &&
      (forall i :: 0 <= i < |values| ==> values[i].store == store && values[i].notifier == notifier) &&
      (forall k :: k in attributes ==> attributes[k] in values)
    }

    constructor Init(notifier: Notifier.Notifier, store: Store)
      ensures this.notifier == notifier && this.store == store
      ensures values == [] && attributes == map[]
    {
      this.notifier := notifier;
      this.store := store;
      values := [];
      attributes := map[];
    }

    /**
     * `Status(configuration, **kwargs)`: a new notifier, a new store that
     * is then `update`d with the keyword arguments (a ValueError from it
     * fails the construction), and one value per member, in order, each
     * also the attribute of the member's name.
     */
    static method Create(configuration: seq<Member>, kwargs: Json) returns (r: Result<Status>)
      requires UniqueAttributes(configuration) && WellFormed(kwargs)
      ensures var run := UpdateRun(JObj([]), kwargs, "");
        (r.Ok? <==> run.outcome == Ok(())) && (r.Err? ==> r.error == "ValueError")
      ensures r.Ok? ==> var s := r.value; var run := UpdateRun(JObj([]), kwargs, "");
        fresh(s) && fresh(s.store) && fresh(s.notifier) && s.Valid() &&
        s.store.data == run.data && s.notifier.callbacks == [] && s.notifier.calls == run.notified &&
        |s.values| == |configuration| &&
        (forall i :: 0 <= i < |configuration| ==> Describes(s.values[i], configuration[i])) &&
        (forall k :: k in s.attributes <==> exists i :: 0 <= i < |configuration| && configuration[i].attribute == k) &&
        (forall i :: 0 <= i < |configuration| ==> s.attributes[configuration[i].attribute] == s.values[i])
    {
      var notifier := new Notifier.Notifier();
      var store := new Store(notifier);
      var updated := store.Update(kwargs);
      if updated.Err? {
        return Err(updated.error);
      }
      var status := new Status.Init(notifier, store);
      var i := 0;
      while i < |configuration|
        invariant 0 <= i <= |configuration|
        invariant fresh(status) && status.notifier == notifier && status.store == store && status.Valid()
        invariant store.data == UpdateRun(JObj([]), kwargs, "").data && notifier.callbacks == []
        invariant notifier.calls == UpdateRun(JObj([]), kwargs, "").notified
        invariant |status.values| == i
        invariant forall j :: 0 <= j < i ==> Describes(status.values[j], configuration[j])
        invariant forall k :: k in status.attributes <==> exists j :: 0 <= j < i && configuration[j].attribute == k
        invariant forall j :: 0 <= j < i ==> status.attributes[configuration[j].attribute] == status.values[j]
      {
        status.AddValue(configuration[i]);
        i := i + 1;
      }
      r := Ok(status);
    }

    /** One turn of the loop of `__init__`: `Value(*m.value)`, appended and set as attribute `m`'s name. */
    method AddValue(m: Member)
      requires Valid()
      modifies this`values, this`attributes
      ensures Valid()
      ensures |values| == |old(values)| + 1 && values[..|old(values)|] == old(values)
      ensures fresh(values[|old(values)|]) && Describes(values[|old(values)|], m)
      ensures attributes == old(attributes)[m.attribute := values[|old(values)|]]
    {
      var v := new Value.Value(m.item, m.description, ReadOnly(m), m.default, store, notifier);
      values := values + [v];
      attributes := attributes[m.attribute := v];
    }

    /** `__iter__`: the values, in configuration order; exactly the attributes' values. */
    function Iter(): (r: seq<Value.Value>)
      requires Valid()
      reads this, store, notifier
      ensures forall k :: k in attributes ==> attributes[k] in r
      ensures forall i :: 0 <= i < |r| ==> r[i].store == store && r[i].notifier == notifier
    {
      values
    }
  }
}
