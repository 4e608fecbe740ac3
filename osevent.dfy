/**
 * osevent/__init__.py: six stubs that raise NotImplementedError until
 * `_import_symbols`, run once when the package is imported, replaces them
 * with the functions of the one driver for the platform,
 * `'_' + the letters of sys.platform`.
 */
module OsEvent {
  import opened Wrappers
  import opened Resolver
  import opened PrivatePlatform

  /** The stubs and their arguments, each with the first line of its docstring. */
  const Stubs: map<string, Symbol> := map[
    "key_down" := Stub(["key"], "Sends a key down event."),
    "key_up" := Stub(["key"], "Sends a key up event."),
    "mouse_down" := Stub(["button"], "Presses a mouse button."),
    "mouse_up" := Stub(["button"], "Releases a mouse button."),
    "mouse_scroll" := Stub(["dx", "dy"], "Scrolls the mouse wheel."),
    "mouse_move" := Stub(["dx", "dy"], "Moves the mouse pointer.")]

  /** The package's globals hold the stubs. */
  predicate HoldsStubs(globals: map<string, Symbol>)
  {
    forall n :: n in Stubs ==> n in globals && globals[n] == Stubs[n]
  }

  /**
   * `_import_symbols()`: the platform's driver is imported, an exception
   * from the import propagates, and the driver's symbols go through
   * `StubRule`.
   */
  method ImportSymbols(ns: Namespace, platform: string, load: string -> Result<Module>) returns (r: Result<()>)
    modifies ns
    ensures var loaded := load(PlatformDriver(platform));
      (loaded.Err? ==> r == Err(loaded.error) && ns.globals == old(ns.globals)) &&
      (loaded.Ok? ==>
        var run := Import(StubRule, old(ns.globals), loaded.value, |loaded.value.entries|);
        ns.globals == run.globals && r == run.outcome)
  {
    var driver := load(PlatformDriver(platform));
    if driver.Err? {
      return Err(driver.error);
    }
    r := ns.ImportSymbols(StubRule, driver.value);
  }

  /**
   * A driver whose public names are either stub names bound to fitting,
   * documentable functions or names the package does not bind is
   * accepted, and each stub it defines is replaced by the driver's
   * function carrying the stub's docstring.
   */
  lemma DriverAccepted(globals: map<string, Symbol>, driver: Module)
    requires HoldsStubs(globals) && DistinctNames(driver)
    requires forall i :: 0 <= i < |driver.entries| && !Private(driver.entries[i].0) ==>
      var (n, v) := driver.entries[i];
      (n in Stubs && Fits(Stubs[n], v) && v.docWritable) || Global(globals, n).None?
    ensures var run := Import(StubRule, globals, driver, |driver.entries|);
      run.outcome.Ok? &&
      forall i :: 0 <= i < |driver.entries| && driver.entries[i].0 in Stubs ==>
        var (n, v) := driver.entries[i];
        n in run.globals && run.globals[n] == v.(doc := Stubs[n].doc)
  {
    var n := |driver.entries|;
    DriverNeverRaises(globals, driver);
    ImportRaises(StubRule, globals, driver, n);
    ImportReplaces(StubRule, globals, driver, n);
    forall i | 0 <= i < n && driver.entries[i].0 in Stubs
      ensures !Private(driver.entries[i].0)
    {
    }
  }

  /** For such a driver, no public name makes the rule raise. */
  lemma DriverNeverRaises(globals: map<string, Symbol>, driver: Module)
    requires HoldsStubs(globals)
    requires forall i :: 0 <= i < |driver.entries| && !Private(driver.entries[i].0) ==>
      var (n, v) := driver.entries[i];
      (n in Stubs && Fits(Stubs[n], v) && v.docWritable) || Global(globals, n).None?
    ensures forall i :: 0 <= i < |driver.entries| && !Private(driver.entries[i].0) ==>
      !EffectAt(StubRule, globals, driver, i).Raise?
  {
    forall i | 0 <= i < |driver.entries| && !Private(driver.entries[i].0)
      ensures !EffectAt(StubRule, globals, driver, i).Raise?
    {
    }
  }

  /**
   * A driver function whose arguments differ from its stub's, such as
   * `mouse_move(x)`, makes the import fail.
   */
  lemma DriverMismatch(globals: map<string, Symbol>, driver: Module, i: nat)
    requires HoldsStubs(globals) && DistinctNames(driver)
    requires i < |driver.entries| && driver.entries[i].0 in Stubs
    requires Callable(driver.entries[i].1) && driver.entries[i].1.spec != Stubs[driver.entries[i].0].spec
    ensures Import(StubRule, globals, driver, |driver.entries|).outcome.Err?
  {
    var name := driver.entries[i].0;
    assert !Private(name);
    assert EffectAt(StubRule, globals, driver, i).Raise?;
    ImportRaises(StubRule, globals, driver, |driver.entries|);
  }
}
