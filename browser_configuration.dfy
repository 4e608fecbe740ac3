/**
 * html/js/lib/configuration.js: typed reads of the browser's stored
 * settings. Stored values are strings; `get` interprets one by the type of
 * the default it is given and falls back on that default. Without Web
 * Storage the values live in an in-memory map that `set` fills with
 * `value.toString()`. `parseFloat` and number formatting are parameters.
 */
module BrowserConfiguration {
  import opened Wrappers

  /** The JavaScript values a setting is read or written as. */
  datatype JsValue = Undefined | Null | Bool(b: bool) | Number(x: real) | Str(s: string) | Object(id: nat)

  /** `typeof` tells these kinds apart. */
  predicate SameType(a: JsValue, b: JsValue)
  {
    (a.Bool? && b.Bool?) || (a.Number? && b.Number?) || (a.Str? && b.Str?)
  }

  /**
   * `get(name, defaultValue)` on the stored string (None where nothing is
   * stored): a boolean default accepts `true` and `false`, a number default
   * any string `parseFloat` reads, a string default any non-empty string;
   * every other default is returned as it is.
   */
  function Get(parseFloat: string -> Option<real>, stored: Option<string>, default: JsValue): (r: JsValue)
    ensures r == default || SameType(r, default)
    ensures stored.None? ==> r == default
    ensures !default.Bool? && !default.Number? && !default.Str? ==> r == default
  {
    match default
    case Bool(_) =>
      if stored == Some("true") then Bool(true)
      else if stored == Some("false") then Bool(false)
      else default
    case Number(_) =>
      if stored.Some? && parseFloat(stored.value).Some? then Number(parseFloat(stored.value).value) else default
    case Str(_) =>
      if stored.Some? && stored.value != "" then Str(stored.value) else default
    case _ => default
  }

  /**
   * `value.toString()`, where it exists (not on `undefined` or `null`);
   * numbers go through the formatter and strings are themselves.
   */
  function ToString(format: real -> string, v: JsValue): (r: Option<string>)
    ensures r.None? <==> v.Undefined? || v.Null?
    ensures v.Str? ==> r == Some(v.s)
    ensures v.Bool? ==> r.Some? && (r.value == "true" <==> v.b)
  {
    match v
    case Undefined => None
    case Null => None
    case Bool(b) => Some(if b then "true" else "false")
    case Number(x) => Some(format(x))
    case Str(s) => Some(s)
    case Object(_) => Some("[object Object]")
  }

  /**
   * `String(value)`, as Web Storage converts what it is given: what
   * `toString` gives wherever it exists, and empty only for an empty
   * string or a number formatted as nothing.
   */
  function Stringify(format: real -> string, v: JsValue): (r: string)
    ensures ToString(format, v).Some? ==> r == ToString(format, v).value
    ensures r == "" ==> v == Str("") || (v.Number? && format(v.x) == "")
  {
    match v
    case Undefined => "undefined"
    case Null => "null"
    case _ => ToString(format, v).value
  }

  /** The settings of one page. */
  class Configuration {
    /** Whether the browser offers Web Storage (`localStorage`). */
    const webStorage: bool
    /** `localStorage`, or `module._storage` without Web Storage. */
    var storage: map<string, string>

    constructor(webStorage: bool, storage: map<string, string>)
      ensures this.webStorage == webStorage && this.storage == storage
    {
      this.webStorage := webStorage;
      this.storage := storage;
    }

    /** `read(name)` */
    function Read(name: string): (r: Option<string>)
      reads this
      ensures r.Some? <==> name in storage
    {
      if name in storage then Some(storage[name]) else None
    }

    /** `get(name, defaultValue)` */
    method GetValue(parseFloat: string -> Option<real>, name: string, default: JsValue) returns (r: JsValue)
      ensures r == Get(parseFloat, Read(name), default)
    {
      var value := Read(name);
      match default {
        case Bool(_) =>
          if value == Some("true") {
            return Bool(true);
          } else if value == Some("false") {
            return Bool(false);
          }
        case Number(_) =>
          if value.Some? && parseFloat(value.value).Some? {
            return Number(parseFloat(value.value).value);
          }
        case Str(_) =>
          if value.Some? && value.value != "" {
            return Str(value.value);
          }
        case _ =>
      }
      return default;
    }

    /**
     * `set(name, value)`: Web Storage keeps `String(value)`; the fallback
     * map keeps `value.toString()`, which raises TypeError for `null` and
     * `undefined`.
     */
    method Set(format: real -> string, name: string, value: JsValue) returns (ok: bool)
      modifies this
      ensures webStorage ==> ok && storage == old(storage)[name := Stringify(format, value)]
      ensures !webStorage ==> (ok <==> ToString(format, value).Some?)
      ensures !webStorage && ok ==> storage == old(storage)[name := ToString(format, value).value]
      ensures !ok ==> storage == old(storage)
    {
      if webStorage {
        storage := storage[name := Stringify(format, value)];
        return true;
      }
      var s := ToString(format, value);
      if s.None? {
        return false;
      }
      storage := storage[name := s.value];
      ok := true;
    }
  }

  /**
   * A boolean written with `set` reads back through `get` with a boolean
   * default, whichever storage holds it.
   */
  lemma BoolRoundTrip(parseFloat: string -> Option<real>, format: real -> string, b: bool, default: bool)
    ensures Get(parseFloat, ToString(format, Bool(b)), Bool(default)) == Bool(b)
    ensures Get(parseFloat, Some(Stringify(format, Bool(b))), Bool(default)) == Bool(b)
  {
  }

  /** A non-empty string reads back as written; the empty string reads as the default. */
  lemma StringRoundTrip(parseFloat: string -> Option<real>, format: real -> string, s: string, default: string)
    ensures Get(parseFloat, ToString(format, Str(s)), Str(default)) == (if s == "" then Str(default) else Str(s))
  {
  }

  /** A number reads back as written wherever `parseFloat` reads its formatted text back. */
  lemma NumberRoundTrip(parseFloat: string -> Option<real>, format: real -> string, x: real, default: real)
    requires parseFloat(format(x)) == Some(x)
    ensures Get(parseFloat, ToString(format, Number(x)), Number(default)) == Number(x)
  {
  }
}
