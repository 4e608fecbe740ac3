/**
 * platform/__init__.py: `implement(globals())` finds the driver modules of
 * a package, imports every one of them (the last that imports is the
 * driver) and replaces the package's stub functions by the driver's.
 * event/__init__.py is such a package: its six stubs are `EventStubs`.
 */
module Platform {
  import opened Wrappers
  import opened Strings
  import opened Resolver

  /** `with modules():` around a driver's imports: an ImportError leaves it as ImplementationImportError. */
  function Modules<T>(r: Result<T>): (s: Result<T>)
    ensures s.Ok? <==> r.Ok?
    ensures s.Ok? ==> s == r
    ensures s.Err? ==> s.error == if r.error == "ImportError" then "ImplementationImportError" else r.error
  {
    if r.Err? && r.error == "ImportError" then Err("ImplementationImportError") else r
  }

  /** The characters of `[a-zA-Z0-9_]`. */
  predicate IdentChar(c: char)
  {
    IsAsciiLetter(c) || IsAsciiDigit(c) || c == '_'
  }

  /** `[a-zA-Z][a-zA-Z0-9_]*\.pyc?` matching all of `s`. */
  predicate ModulePattern(s: string)
  {
    |s| >= 4 && IsAsciiLetter(s[0]) &&
    ((EndsWith(s, ".py") && forall k :: 1 <= k < |s| - 3 ==> IdentChar(s[k])) ||
     (|s| >= 5 && EndsWith(s, ".pyc") && forall k :: 1 <= k < |s| - 4 ==> IdentChar(s[k])))
  }

  /** `_MODULE_RE.match(name)`: anchored at the start; `$` also matches just before a final newline. */
  predicate ModuleFile(name: string)
  {
    ModulePattern(name) || (|name| > 0 && name[|name| - 1] == '\n' && ModulePattern(name[..|name| - 1]))
  }

  /** What `_package_importables` yields for one listing entry, if anything. */
  function Importable(package: string, e: Entry): Option<string>
  {
    if Private(e.name) then None
    else if !e.isDir then (if ModuleFile(e.name) then Some(package + "." + BeforeLast(e.name, '.')) else None)
    else if e.hasInit then Some(package + "." + e.name)
    else None
  }

  /**
   * `_package_importables(package)` over the listing of the package's
   * directory: the dotted names of its public modules (files matching
   * `_MODULE_RE`, extension dropped) and public packages (directories with
   * an `__init__.py` or `__init__.pyc`), in listing order.
   */
  function Importables(package: string, listing: seq<Entry>): (r: seq<string>)
    ensures |r| <= |listing|
    ensures forall c :: c in r <==> exists e :: e in listing && Importable(package, e) == Some(c)
  {
    if listing == [] then []
    else
      var first := Importable(package, listing[0]);
      (if first.Some? then [first.value] else []) + Importables(package, listing[1..])
  }

  /** Exactly the public entries qualify: a private name never does; a public module file or package always does. */
  lemma ImportableKinds(package: string, e: Entry)
    ensures Private(e.name) ==> Importable(package, e).None?
    ensures !Private(e.name) && !e.isDir ==> (Importable(package, e).Some? <==> ModuleFile(e.name))
    ensures !Private(e.name) && e.isDir ==> (Importable(package, e).Some? <==> e.hasInit)
    ensures Importable(package, e).Some? ==> StartsWith(Importable(package, e).value, package + ".")
  {
    var p := package + ".";
    if Importable(package, e).Some? {
      var c := Importable(package, e).value;
      var rest := if e.isDir then e.name else BeforeLast(e.name, '.');
      assert c == p + rest;
      assert c[..|p|] == p;
    }
  }

  /** The stem of a matching file name: a letter and identifier characters, so it holds no dot. */
  lemma StemHasNoDot(s: string)
    requires ModulePattern(s)
    ensures '.' !in BeforeLast(s, '.')
    ensures BeforeLast(s, '.') != [] && IsAsciiLetter(BeforeLast(s, '.')[0])
  {
    var d := if EndsWith(s, ".pyc") && |s| >= 5 && (forall k :: 1 <= k < |s| - 4 ==> IdentChar(s[k])) then |s| - 4 else |s| - 3;
    assert s[d] == '.';
    assert forall k :: d < k < |s| ==> s[k] != '.';
    assert LastIndexOf(s, '.') == d;
    var stem := s[..d];
    assert forall k :: 0 <= k < |stem| ==> IdentChar(stem[k]);
  }

  /**
   * The module `implement` imports for a module file is the file's stem:
   * `'.' + candidate.rsplit('.', 1)[-1]` undoes the package prefix.
   */
  lemma ImportedStem(package: string, name: string)
    requires ModulePattern(name)
    ensures AfterLast(package + "." + BeforeLast(name, '.'), '.') == BeforeLast(name, '.')
  {
    var stem := BeforeLast(name, '.');
    StemHasNoDot(name);
    var c := package + "." + stem;
    assert c[|package|] == '.';
    assert forall k :: |package| < k < |c| ==> c[k] == stem[k - |package| - 1];
    assert LastIndexOf(c, '.') == |package|;
    assert c[|package| + 1..] == stem;
  }

  /**
   * The candidate loop: every candidate is imported, as
   * `'.' + candidate.rsplit('.', 1)[-1]`; one that raises
   * ImplementationImportError is skipped, any other exception propagates,
   * and the last that imports is the driver.
   */
  function LastLoaded(load: string -> Result<Module>, candidates: seq<string>): (r: Result<Option<Module>>)
    ensures r.Err? ==> r.error != "ImplementationImportError"
    ensures r.Ok? && r.value.Some? ==> candidates != []
  {
    if candidates == [] then Ok(None)
    else match LastLoaded(load, candidates[..|candidates| - 1])
      case Err(e) => Err(e)
      case Ok(driver) =>
        match load(AfterLast(candidates[|candidates| - 1], '.'))
        case Ok(m) => Ok(Some(m))
        case Err(e) => if e == "ImplementationImportError" then Ok(driver) else Err(e)
  }

  /** What importing candidate `i` gives. */
  function LoadAt(load: string -> Result<Module>, candidates: seq<string>, i: nat): Result<Module>
    requires i < |candidates|
  {
    load(AfterLast(candidates[i], '.'))
  }

  /** The loop fails exactly when some import raises something other than ImplementationImportError. */
  lemma {:induction false} LastLoadedFails(load: string -> Result<Module>, candidates: seq<string>)
    ensures LastLoaded(load, candidates).Err? <==>
      (exists i :: 0 <= i < |candidates| && LoadAt(load, candidates, i).Err? &&
        LoadAt(load, candidates, i).error != "ImplementationImportError")
  {
    if candidates != [] {
      var n := |candidates| - 1;
      var init := candidates[..n];
      LastLoadedFails(load, init);
      if LastLoaded(load, candidates).Err? {
        if LastLoaded(load, init).Err? {
          var i :| 0 <= i < |init| && LoadAt(load, init, i).Err? &&
            LoadAt(load, init, i).error != "ImplementationImportError";
          assert LoadAt(load, candidates, i) == LoadAt(load, init, i);
        } else {
          assert LoadAt(load, candidates, n).Err? && LoadAt(load, candidates, n).error != "ImplementationImportError";
        }
      } else {
        forall i | 0 <= i < |candidates|
          ensures !(LoadAt(load, candidates, i).Err? && LoadAt(load, candidates, i).error != "ImplementationImportError")
        {
          if i < n {
            assert LoadAt(load, init, i) == LoadAt(load, candidates, i);
          }
        }
      }
    }
  }

  /** The loop finds no driver exactly when every import raises ImplementationImportError. */
  lemma {:induction false} LastLoadedNone(load: string -> Result<Module>, candidates: seq<string>)
    ensures LastLoaded(load, candidates) == Ok(None) <==>
      forall i :: 0 <= i < |candidates| ==> LoadAt(load, candidates, i) == Err("ImplementationImportError")
  {
    if candidates != [] {
      var init := candidates[..|candidates| - 1];
      LastLoadedNone(load, init);
      assert forall i :: 0 <= i < |init| ==> LoadAt(load, init, i) == LoadAt(load, candidates, i);
      if LastLoaded(load, candidates) == Ok(None) {
        assert LastLoaded(load, init) == Ok(None);
        assert LoadAt(load, candidates, |init|) == Err("ImplementationImportError");
      }
      if forall i :: 0 <= i < |candidates| ==> LoadAt(load, candidates, i) == Err("ImplementationImportError") {
        assert forall i :: 0 <= i < |init| ==> LoadAt(load, init, i) == Err("ImplementationImportError");
        assert LoadAt(load, candidates, |init|) == Err("ImplementationImportError");
      }
    }
  }

  /** The driver found is the module of a candidate after which every import raised. */
  lemma {:induction false} LastLoadedLast(load: string -> Result<Module>, candidates: seq<string>)
    ensures var r := LastLoaded(load, candidates);
      r.Ok? && r.value.Some? ==>
        exists i :: 0 <= i < |candidates| && LoadAt(load, candidates, i) == Ok(r.value.value) &&
          forall j :: i < j < |candidates| ==> LoadAt(load, candidates, j).Err?
  {
    if candidates != [] {
      var init := candidates[..|candidates| - 1];
      LastLoadedLast(load, init);
      var r := LastLoaded(load, candidates);
      if r.Ok? && r.value.Some? && LoadAt(load, candidates, |init|).Err? {
        var i :| 0 <= i < |init| && LoadAt(load, init, i) == Ok(r.value.value) &&
          forall j :: i < j < |init| ==> LoadAt(load, init, j).Err?;
        assert LoadAt(load, candidates, i) == Ok(r.value.value);
        assert forall j :: i < j < |candidates| ==> LoadAt(load, candidates, j).Err? by {
          forall j | i < j < |candidates|
            ensures LoadAt(load, candidates, j).Err?
          {
            if j < |init| {
              assert LoadAt(load, init, j) == LoadAt(load, candidates, j);
            }
          }
        }
      }
    }
  }

  /** Once an import has failed the loop, later candidates change nothing. */
  lemma {:induction false} LastLoadedStops(load: string -> Result<Module>, candidates: seq<string>, k: nat)
    requires k <= |candidates| && LastLoaded(load, candidates[..k]).Err?
    ensures LastLoaded(load, candidates) == LastLoaded(load, candidates[..k])
    decreases |candidates| - k
  {
    if k < |candidates| {
      assert candidates[..k + 1][..k] == candidates[..k];
      LastLoadedStops(load, candidates, k + 1);
    } else {
      assert candidates[..k] == candidates;
    }
  }

  /** Whether the argument specifications must agree: as written, for every callable value. */
  function SignatureCheck(checkAll: bool, g: Symbol, value: Symbol): Option<string>
  {
    if value.kind == Class then Compare(value.initSpec, g.initSpec)
    else if (checkAll || value.kind == Function) && Callable(value) then Compare(value.spec, g.spec)
    else None
  }

  /**
   * The docstring step: a value with a docstring gets the global's
   * appended after a blank line (TypeError when the global has none), one
   * without takes the global's; a `__doc__` that cannot be set is left
   * alone.
   */
  function ExpandDoc(g: Symbol, value: Symbol): (r: Result<Symbol>)
    ensures r.Ok? ==> r.value.kind == value.kind && r.value.spec == value.spec && r.value.initSpec == value.initSpec
    ensures r.Err? <==> value.doc.Some? && value.doc.value != "" && g.doc.None?
    ensures r.Ok? && !value.docWritable ==> r.value == value
    ensures r.Ok? && value.docWritable && value.doc.Some? && value.doc.value != "" ==>
      r.value.doc == Some(value.doc.value + "\n\n" + g.doc.value)
    ensures r.Ok? && value.docWritable && (value.doc.None? || value.doc.value == "") ==> r.value.doc == g.doc
  {
    if value.doc.Some? && value.doc.value != "" then
      if g.doc.None? then Err("TypeError")
      else if value.docWritable then Ok(value.(doc := Some(value.doc.value + "\n\n" + g.doc.value)))
      else Ok(value)
    else if value.docWritable then Ok(value.(doc := g.doc))
    else Ok(value)
  }

  /**
   * The loop body of `implement`; `checkAll` says whether every callable
   * value has its argument specification checked. Only an existing
   * callable global is replaced, by a value of the same kind and
   * specifications; a class must agree on `__init__` and a function on
   * itself.
   */
  function RuleWith(checkAll: bool, g: Option<Symbol>, value: Symbol): (r: Effect)
    ensures g.None? ==> r == Skip
    ensures g.Some? && !Callable(g.value) ==> r == Raise("ImportError")
    ensures r.Replace? ==> g.Some? && Callable(g.value)
    ensures r.Replace? ==> r.value.kind == value.kind && r.value.spec == value.spec && r.value.initSpec == value.initSpec
    ensures r.Replace? && value.kind == Class ==> value.initSpec.Some? && value.initSpec == g.value.initSpec
    ensures r.Replace? && Callable(value) && value.kind != Class && (checkAll || value.kind == Function) ==>
      value.spec.Some? && value.spec == g.value.spec
  {
    if g.None? then Skip
    else if !Callable(g.value) then Raise("ImportError")
    else match SignatureCheck(checkAll, g.value, value)
      case Some(e) => Raise(e)
      case None =>
        match ExpandDoc(g.value, value)
        case Err(e) => Raise(e)
        case Ok(v) => Replace(v)
  }

  /**
   * The loop body of `implement` as written: `elif inspect.isfunction:`
   * tests the function object itself, which is always true, so every
   * callable value has its argument specification checked.
   */
  function RuleAsWritten(g: Option<Symbol>, value: Symbol): Effect
  {
    RuleWith(true, g, value)
  }

  /**
   * The loop body of `implement` as intended: a class is checked on
   * `__init__`, a function on itself, and any other value is not checked.
   */
  function Rule(g: Option<Symbol>, value: Symbol): (r: Effect)
    ensures g.None? ==> r == Skip
    ensures g.Some? && !Callable(g.value) ==> r == Raise("ImportError")
    ensures r.Replace? <==>
      g.Some? && Callable(g.value) &&
      (value.kind == Class ==> value.initSpec.Some? && value.initSpec == g.value.initSpec) &&
      (value.kind == Function ==> value.spec.Some? && value.spec == g.value.spec) &&
      !(value.doc.Some? && value.doc.value != "" && g.value.doc.None?)
    ensures r.Replace? ==> r.value.kind == value.kind && r.value.spec == value.spec
  {
    RuleWith(false, g, value)
  }

  lemma RuleReplacesOnlyCallables()
    ensures ReplacesOnlyCallables(Rule)
  {
  }

  /**
   * A callable that is neither a function nor a class, and that
   * `getargspec` cannot take (a builtin, say), fails the import as
   * written but replaces the stub as intended.
   */
  lemma IsFunctionNotCalled(g: Symbol, value: Symbol)
    requires Callable(g) && value.kind == OtherCallable && value.spec.None? && value.doc.None?
    ensures RuleAsWritten(Some(g), value) == Raise("TypeError")
    ensures Rule(Some(g), value).Replace?
  {
  }

  /**
   * `implement(globals_dict)` for a package whose directory lists
   * `listing`: the candidate loop, ImportError when no driver imports,
   * then the driver's symbols through `Rule`.
   */
  method Implement(ns: Namespace, package: string, listing: seq<Entry>, load: string -> Result<Module>)
    returns (r: Result<()>)
    modifies ns
    ensures var found := LastLoaded(load, Importables(package, listing));
      (found.Err? ==> r == Err(found.error) && ns.globals == old(ns.globals)) &&
      (found == Ok(None) ==> r == Err("ImportError") && ns.globals == old(ns.globals)) &&
      (found.Ok? && found.value.Some? ==>
        var run := Import(Rule, old(ns.globals), found.value.value, |found.value.value.entries|);
        ns.globals == run.globals && r == run.outcome)
  {
    var candidates := Importables(package, listing);
    var driver: Option<Module> := None;
    var i := 0;
    while i < |candidates|
      invariant i <= |candidates| && LastLoaded(load, candidates[..i]) == Ok(driver)
    {
      var loaded := load(AfterLast(candidates[i], '.'));
      assert candidates[..i + 1][..i] == candidates[..i];
      if loaded.Ok? {
        driver := Some(loaded.value);
      } else if loaded.error != "ImplementationImportError" {
        LastLoadedStops(load, candidates, i + 1);
        return Err(loaded.error);
      }
      i := i + 1;
    }
    assert candidates[..i] == candidates;
    if driver.None? {
      return Err("ImportError");
    }
    r := ns.ImportSymbols(Rule, driver.value);
  }

  /** The six stubs of event/__init__.py, which take and return the backend's state. */
  const EventStubs: map<string, Symbol> := map[
    "key_down" := Stub(["state", "name", "keysym", "symbol"], "Sends a key down event."),
    "key_up" := Stub(["state", "name", "keysym", "symbol"], "Sends a key up event."),
    "mouse_down" := Stub(["state", "button"], "Presses a mouse button."),
    "mouse_up" := Stub(["state", "button"], "Releases a mouse button."),
    "mouse_scroll" := Stub(["state", "dx", "dy"], "Scrolls the mouse wheel."),
    "mouse_move" := Stub(["state", "dx", "dy"], "Moves the mouse pointer.")]

  /**
   * A driver for event/__init__.py whose public names are either stub
   * names bound to fitting functions or names the package does not bind
   * (event/xorg.py's `string_to_keysym`, its imported modules) is
   * accepted: the import succeeds and each stub it defines is replaced
   * by the driver's function, carrying both docstrings.
   */
  lemma EventDriverAccepted(globals: map<string, Symbol>, driver: Module)
    requires forall n :: n in EventStubs ==> n in globals && globals[n] == EventStubs[n]
    requires DistinctNames(driver)
    requires forall i :: 0 <= i < |driver.entries| && !Private(driver.entries[i].0) ==>
      var (n, v) := driver.entries[i];
      (n in EventStubs && Fits(EventStubs[n], v) && v.docWritable) || Global(globals, n).None?
    ensures var run := Import(Rule, globals, driver, |driver.entries|);
      run.outcome.Ok? &&
      forall i :: 0 <= i < |driver.entries| && driver.entries[i].0 in EventStubs ==>
        var (n, v) := driver.entries[i];
        n in run.globals && run.globals[n] == v.(doc := if v.doc.Some? && v.doc.value != "" then Some(v.doc.value + "\n\n" + EventStubs[n].doc.value) else EventStubs[n].doc)
  {
    var n := |driver.entries|;
    EventDriverNeverRaises(globals, driver);
    ImportRaises(Rule, globals, driver, n);
    ImportReplaces(Rule, globals, driver, n);
    forall i | 0 <= i < n && driver.entries[i].0 in EventStubs
      ensures !Private(driver.entries[i].0)
    {
    }
  }

  /** For such a driver, no public name makes the rule raise. */
  lemma EventDriverNeverRaises(globals: map<string, Symbol>, driver: Module)
    requires forall n :: n in EventStubs ==> n in globals && globals[n] == EventStubs[n]
    requires forall i :: 0 <= i < |driver.entries| && !Private(driver.entries[i].0) ==>
      var (n, v) := driver.entries[i];
      (n in EventStubs && Fits(EventStubs[n], v) && v.docWritable) || Global(globals, n).None?
    ensures forall i :: 0 <= i < |driver.entries| && !Private(driver.entries[i].0) ==>
      !EffectAt(Rule, globals, driver, i).Raise?
  {
    forall i | 0 <= i < |driver.entries| && !Private(driver.entries[i].0)
      ensures !EffectAt(Rule, globals, driver, i).Raise?
    {
    }
  }
}
