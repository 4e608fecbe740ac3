/**
 * The configuration values of configuration/__init__.py: a `Value` is a
 * descriptor naming an item of a `Store`; reading it gives the stored value
 * or, when that is None, what its default getter computes from the store,
 * and assigning it writes through `Store.set` unless it is read-only.
 */
module Configuration {
  import opened Wrappers
  import opened Json
  import opened Store

  /**
   * A default getter: given the store's data, the value, or the exception
   * the getter raises.
   */
  type Getter = Json -> Result<Json>

  /** `Value(name, description, readonly, private, default)`. */
  datatype Value = Value(name: string, description: string, readonly: bool, private: bool, default: Getter)

  /** `Value(name, description)`: read-only, not private, and a default of None. */
  function NewValue(name: string, description: string): (v: Value)
    ensures v.name == name && v.description == description
    ensures v.readonly && !v.private
    ensures forall data :: v.default(data) == Ok(JNull)
  {
    Value(name, description, true, false, _ => Ok(JNull))
  }

  /**
   * `value(store)` (and `__get__` on an instance): `store.get(name)`, or
   * the default getter's value when that is None; a ValueError from `get`
   * propagates.
   */
  function ValueOf(v: Value, data: Json): (r: Result<Json>)
    ensures Lookup(data, Path(v.name)).Ok? && Lookup(data, Path(v.name)).value != JNull ==> r == Lookup(data, Path(v.name))
    ensures r.Err? ==> r.error == "ValueError" || (Lookup(data, Path(v.name)) == Ok(JNull) && r == v.default(data))
    ensures Lookup(data, Path(v.name)) == Ok(JNull) ==> r == v.default(data)
  {
    match Lookup(data, Path(v.name))
    case Err(e) => Err(e)
    case Ok(x) => if x == JNull then v.default(data) else Ok(x)
  }

  /**
   * After `set(name, x)` with `x` not None, reading the value gives `x`
   * (equal by Python `==`) and never calls the default getter.
   */
  lemma {:induction false} ValueOfAfterSet(v: Value, data: Json, x: Json)
    requires WellFormed(x) && x != JNull && SetIn(data, Path(v.name), x).Ok?
    ensures var after := SetIn(data, Path(v.name), x).value.0;
      ValueOf(v, after).Ok? && PyEq(x, ValueOf(v, after).value) &&
      ValueOf(v, after) == Lookup(after, Path(v.name))
  {
    SetInThenLookup(data, Path(v.name), x);
    PyEqRefl(x);
  }

  /**
   * `__set__(store, value)`: a read-only value raises AttributeError and
   * changes nothing; any other is written with `store.set(name, value)`.
   */
  method Assign(v: Value, store: Store, value: Json) returns (r: Result<()>)
    requires store.Valid() && WellFormed(value)
    modifies store`data, store.notifier`log, store.notifier`calls
    ensures store.Valid()
    ensures v.readonly ==> (r == Err("AttributeError") && store.data == old(store.data) &&
      store.notifier.calls == old(store.notifier.calls) && store.notifier.log == old(store.notifier.log))
    ensures !v.readonly ==> r == (if Lookup(old(store.data), Path(v.name)).Ok? then Ok(()) else Err("ValueError"))
    ensures !v.readonly ==> (r.Ok? <==> SetIn(old(store.data), Path(v.name), value).Ok?)
    ensures !v.readonly && r.Ok? ==> store.data == SetIn(old(store.data), Path(v.name), value).value.0
    ensures !v.readonly ==> var changed := r.Ok? && !PyEq(value, Lookup(old(store.data), Path(v.name)).value);
      store.notifier.calls == old(store.notifier.calls) + (if changed then [(v.name, value)] else [])
  {
    if v.readonly {
      return Err("AttributeError");
    }
    r := store.Set(v.name, value);
  }

  /** A class attribute: a configuration value, or anything else. */
  datatype Attribute = ValueAttribute(value: Value) | OtherAttribute

  /** The names among `names` whose class attribute is a configuration value, in order. */
  function ValueNames(names: seq<string>, attributes: map<string, Attribute>): (r: seq<string>)
    ensures |r| <= |names|
    ensures forall n :: n in r <==> n in names && n in attributes && attributes[n].ValueAttribute?
  {
    if names == [] then []
    else if names[0] in attributes && attributes[names[0]].ValueAttribute? then [names[0]] + ValueNames(names[1..], attributes)
    else ValueNames(names[1..], attributes)
  }

  /**
   * `values`: for every name of `dir(self)` (given as `names`, in its
   * order) whose class attribute is a configuration value, that value and
   * what it reads; the first ValueError stops it.
   */
  function Values(names: seq<string>, attributes: map<string, Attribute>, data: Json): (r: Result<seq<(Value, Json)>>)
    ensures r.Ok? ==> |r.value| == |ValueNames(names, attributes)|
  {
    if names == [] then Ok([])
    else
      var rest := Values(names[1..], attributes, data);
      if names[0] in attributes && attributes[names[0]].ValueAttribute? then
        var v := attributes[names[0]].value;
        match ValueOf(v, data)
        case Err(e) => Err(e)
        case Ok(x) =>
          match rest
          case Err(e) => Err(e)
          case Ok(tail) => Ok([(v, x)] + tail)
      else rest
  }

  /**
   * What `values` gives, position by position: the configuration values
   * among `names`, each with what it reads.
   */
  lemma {:induction false} ValuesRead(names: seq<string>, attributes: map<string, Attribute>, data: Json)
    ensures var r := Values(names, attributes, data);
      r.Ok? ==> forall i :: 0 <= i < |r.value| ==>
        r.value[i].0 == attributes[ValueNames(names, attributes)[i]].value &&
        ValueOf(r.value[i].0, data) == Ok(r.value[i].1)
    decreases |names|
  {
    if names != [] {
      ValuesRead(names[1..], attributes, data);
      var r := Values(names, attributes, data);
      var rest := Values(names[1..], attributes, data);
      var all := ValueNames(names, attributes);
      var vn := ValueNames(names[1..], attributes);
      if names[0] in attributes && attributes[names[0]].ValueAttribute? {
        assert all == [names[0]] + vn;
        if r.Ok? {
          var v := attributes[names[0]].value;
          assert r.value == [(v, ValueOf(v, data).value)] + rest.value;
          forall i | 0 < i < |r.value|
            ensures r.value[i] == rest.value[i - 1] && all[i] == vn[i - 1]
          {
          }
        }
      } else {
        assert all == vn;
      }
    }
  }

  /** `values` fails exactly when one of the configuration values among `names` fails to read. */
  lemma {:induction false} ValuesFail(names: seq<string>, attributes: map<string, Attribute>, data: Json)
    ensures Values(names, attributes, data).Err? <==>
      exists n :: n in ValueNames(names, attributes) && ValueOf(attributes[n].value, data).Err?
    decreases |names|
  {
    if names != [] {
      ValuesFail(names[1..], attributes, data);
      var rest := Values(names[1..], attributes, data);
      var all := ValueNames(names, attributes);
      var vn := ValueNames(names[1..], attributes);
      if names[0] in attributes && attributes[names[0]].ValueAttribute? {
        assert all == [names[0]] + vn;
        var v := attributes[names[0]].value;
        if ValueOf(v, data).Err? {
          assert names[0] in all;
        } else if rest.Err? {
          var n :| n in vn && ValueOf(attributes[n].value, data).Err?;
          assert n in all;
        } else {
          forall n | n in all
            ensures ValueOf(attributes[n].value, data).Ok?
          {
            if n != names[0] {
              assert n in vn;
            }
          }
        }
      } else {
        assert all == vn;
      }
    }
  }
}
