/**
 * _platform/__init__.py: the older driver resolver. `_import_symbols`
 * imports the first candidate driver that imports at all, trying the
 * caller's candidates in order and then `'_' + the letters of
 * sys.platform`, and replaces the caller's stubs with the driver's public
 * names through `Resolver.StubRule`. `__all__` lists the subpackages.
 */
module PrivatePlatform {
  import opened Wrappers
  import opened Strings
  import opened Resolver

  /** `''.join(c for c in s if c.isalpha())`, on the ASCII letters a platform name is made of. */
  function Letters(s: string): (r: string)
    ensures |r| <= |s|
    ensures forall i :: 0 <= i < |r| ==> IsAsciiLetter(r[i])
    ensures (forall i :: 0 <= i < |s| ==> IsAsciiLetter(s[i])) ==> r == s
  {
    if s == [] then []
    else (if IsAsciiLetter(s[0]) then [s[0]] else []) + Letters(s[1..])
  }

  /** The default driver, `'_' + ...`: always a private name, followed only by letters. */
  function PlatformDriver(platform: string): (r: string)
    ensures Private(r) && |r| == |Letters(platform)| + 1
    ensures forall i :: 1 <= i < |r| ==> IsAsciiLetter(r[i])
  {
    "_" + Letters(platform)
  }

  /**
   * A platform name made of letters followed by a version without letters
   * (`linux2`, `win32`) selects the driver named after the letters
   * (`_linux`, `_win`).
   */
  lemma {:induction false} PlatformDriverDropsVersion(name: string, version: string)
    requires forall i :: 0 <= i < |name| ==> IsAsciiLetter(name[i])
    requires forall i :: 0 <= i < |version| ==> !IsAsciiLetter(version[i])
    ensures PlatformDriver(name + version) == "_" + name
  {
    LettersAppend(name, version);
    NoLetters(version);
    assert name + [] == name;
  }

  /** A string without letters has none to keep. */
  lemma {:induction false} NoLetters(s: string)
    requires forall i :: 0 <= i < |s| ==> !IsAsciiLetter(s[i])
    ensures Letters(s) == []
  {
    if s != [] {
      NoLetters(s[1..]);
    }
  }

  /** The letters of two strings one after the other. */
  lemma {:induction false} LettersAppend(a: string, b: string)
    ensures Letters(a + b) == Letters(a) + Letters(b)
  {
    if a != [] {
      assert (a + b)[0] == a[0] && (a + b)[1..] == a[1..] + b;
      LettersAppend(a[1..], b);
    } else {
      assert a + b == b;
    }
  }

  /**
   * The candidate loop: the first candidate that imports is the driver,
   * one that raises ImportError is passed over, and any other exception
   * propagates.
   */
  function FirstLoaded(load: string -> Result<Module>, candidates: seq<string>): (r: Result<Option<Module>>)
    ensures r.Err? ==> r.error != "ImportError"
    ensures r.Ok? && r.value.Some? ==> exists c :: c in candidates && load(c) == Ok(r.value.value)
  {
    if candidates == [] then Ok(None)
    else match load(candidates[0])
      case Ok(m) => Ok(Some(m))
      case Err(e) => if e == "ImportError" then FirstLoaded(load, candidates[1..]) else Err(e)
  }

  /** Every candidate before index `i` raised ImportError. */
  predicate PassedOver(load: string -> Result<Module>, candidates: seq<string>, i: nat)
    requires i <= |candidates|
  {
    forall j :: 0 <= j < i ==> load(candidates[j]) == Err("ImportError")
  }

  /**
   * The loop stops at the first candidate that does not raise
   * ImportError: with a driver if it imports, with its exception if it
   * raises something else; with no driver exactly when every candidate
   * raised ImportError.
   */
  lemma {:induction false} FirstLoadedFirst(load: string -> Result<Module>, candidates: seq<string>, i: nat)
    requires i < |candidates| && PassedOver(load, candidates, i) && load(candidates[i]) != Err("ImportError")
    ensures load(candidates[i]).Ok? ==> FirstLoaded(load, candidates) == Ok(Some(load(candidates[i]).value))
    ensures load(candidates[i]).Err? ==> FirstLoaded(load, candidates) == Err(load(candidates[i]).error)
  {
    if i > 0 {
      assert load(candidates[0]) == Err("ImportError");
      var rest := candidates[1..];
      assert forall j :: 0 <= j < i - 1 ==> rest[j] == candidates[j + 1];
      FirstLoadedFirst(load, rest, i - 1);
    }
  }

  /** No driver is found exactly when every candidate raised ImportError. */
  lemma {:induction false} FirstLoadedNone(load: string -> Result<Module>, candidates: seq<string>)
    ensures FirstLoaded(load, candidates) == Ok(None) <==> PassedOver(load, candidates, |candidates|)
  {
    if candidates != [] {
      var rest := candidates[1..];
      FirstLoadedNone(load, rest);
      assert forall j :: 0 <= j < |rest| ==> rest[j] == candidates[j + 1];
      if PassedOver(load, candidates, |candidates|) {
        assert load(candidates[0]) == Err("ImportError");
        assert PassedOver(load, rest, |rest|);
      }
      if FirstLoaded(load, candidates) == Ok(None) {
        assert load(candidates[0]) == Err("ImportError");
        forall j | 0 <= j < |candidates|
          ensures load(candidates[j]) == Err("ImportError")
        {
          if j > 0 {
            assert candidates[j] == rest[j - 1];
          }
        }
      }
    }
  }

  /**
   * `_import_symbols(globals_dict, *candidates)`: the candidates and then
   * the platform's driver are imported until one succeeds; ImportError
   * when none does; then the driver's symbols through `StubRule`.
   */
  method ImportSymbols(ns: Namespace, candidates: seq<string>, platform: string, load: string -> Result<Module>)
    returns (r: Result<()>)
    modifies ns
    ensures var found := FirstLoaded(load, candidates + [PlatformDriver(platform)]);
      (found.Err? ==> r == Err(found.error) && ns.globals == old(ns.globals)) &&
      (found == Ok(None) ==> r == Err("ImportError") && ns.globals == old(ns.globals)) &&
      (found.Ok? && found.value.Some? ==>
        var run := Import(StubRule, old(ns.globals), found.value.value, |found.value.value.entries|);
        ns.globals == run.globals && r == run.outcome)
  {
    var all := candidates + [PlatformDriver(platform)];
    var driver: Option<Module> := None;
    var i := 0;
    while i < |all| && driver.None?
      invariant i <= |all|
      invariant driver.None? ==> FirstLoaded(load, all) == FirstLoaded(load, all[i..])
      invariant driver.Some? ==> FirstLoaded(load, all) == Ok(driver)
    {
      var loaded := load(all[i]);
      assert all[i..][1..] == all[i + 1..];
      if loaded.Ok? {
        driver := Some(loaded.value);
      } else if loaded.error != "ImportError" {
        return Err(loaded.error);
      }
      i := i + 1;
    }
    if driver.None? {
      return Err("ImportError");
    }
    r := ns.ImportSymbols(StubRule, driver.value);
  }
}
