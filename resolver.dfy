/**
 * The symbol import shared by the platform-driver resolvers
 * (platform/__init__.py `implement`, _platform/__init__.py
 * `_import_symbols`, osevent/__init__.py `_import_symbols`): every public
 * name the driver module lists that is also bound, to something other
 * than None, in the importing module's globals replaces that global,
 * after a check that the global is callable and that the two argument
 * specifications agree. Modules are maps from names to what the names are
 * bound to; importing a module is a parameter.
 */
module Resolver {
  import opened Wrappers

  /** What a name is bound to: a function, a class, another callable, other data, or None. */
  datatype Kind = Function | Class | OtherCallable | Data | NoneValue

  /** `inspect.getargspec(x)`, abstracted to the argument names. */
  type ArgSpec = seq<string>

  /**
   * A bound value: its kind; `getargspec` of it and of its `__init__`
   * (None where `getargspec` raises TypeError); its `__doc__`; whether
   * `__doc__` can be assigned.
   */
  datatype Symbol = Symbol(kind: Kind, spec: Option<ArgSpec>, initSpec: Option<ArgSpec>,
                           doc: Option<string>, docWritable: bool)

  /** `callable(x)` */
  predicate Callable(s: Symbol)
  {
    s.kind == Function || s.kind == Class || s.kind == OtherCallable
  }

  /** `name[0] == '_'` (a listed name is never empty). */
  predicate Private(name: string)
  {
    |name| > 0 && name[0] == '_'
  }

  /** A driver module as `dir` lists it: each name with `getattr(driver, name)`. */
  datatype Module = Module(entries: seq<(string, Symbol)>)

  /** `dir` lists every name once. */
  predicate DistinctNames(m: Module)
  {
    forall i, j :: 0 <= i < j < |m.entries| ==> m.entries[i].0 != m.entries[j].0
  }

  /** `globals_dict.get(name, None)`: the global, unless it is absent or None. */
  function Global(globals: map<string, Symbol>, name: string): (r: Option<Symbol>)
    ensures r.Some? <==> name in globals && globals[name].kind != NoneValue
    ensures r.Some? ==> r.value == globals[name]
  {
    if name in globals && globals[name].kind != NoneValue then Some(globals[name]) else None
  }

  /** What the loop does with one public name: nothing, replace the global, or raise. */
  datatype Effect = Skip | Replace(value: Symbol) | Raise(error: string)

  /** How a resolver treats one public name, given its current global and the driver's value. */
  type Rule = (Option<Symbol>, Symbol) -> Effect

  /** A rule that replaces only globals that exist and are callable. */
  ghost predicate ReplacesOnlyCallables(rule: Rule)
  {
    forall g: Option<Symbol>, v: Symbol :: rule(g, v).Replace? ==> g.Some? && Callable(g.value)
  }

  /** The globals after some of the driver's names, and whether the loop has raised. */
  datatype Imported = Imported(globals: map<string, Symbol>, outcome: Result<()>)

  /** The loop over `dir(driver)`, after its first `n` names; it stops at the first raise. */
  function Import(rule: Rule, globals: map<string, Symbol>, driver: Module, n: nat): (r: Imported)
    requires n <= |driver.entries|
    ensures globals.Keys <= r.globals.Keys
    ensures forall k :: k in r.globals && k !in globals ==> !Private(k)
  {
    if n == 0 then Imported(globals, Ok(()))
    else
      var before := Import(rule, globals, driver, n - 1);
      var (name, value) := driver.entries[n - 1];
      if before.outcome.Err? || Private(name) then before
      else match rule(Global(before.globals, name), value)
        case Skip => before
        case Replace(v) => Imported(before.globals[name := v], Ok(()))
        case Raise(e) => Imported(before.globals, Err(e))
  }

  /** Once the loop has raised, the later names change nothing. */
  lemma {:induction false} ImportStops(rule: Rule, globals: map<string, Symbol>, driver: Module, k: nat, n: nat)
    requires k <= n <= |driver.entries| && Import(rule, globals, driver, k).outcome.Err?
    ensures Import(rule, globals, driver, n) == Import(rule, globals, driver, k)
    decreases n - k
  {
    if k < n {
      ImportStops(rule, globals, driver, k, n - 1);
    }
  }

  /** The names among the first `n` that the loop may replace: the public ones. */
  predicate Touched(driver: Module, n: nat, name: string)
    requires n <= |driver.entries|
  {
    exists i :: 0 <= i < n && driver.entries[i].0 == name && !Private(name)
  }

  /**
   * Nothing but the driver's public names changes, and no global is
   * added or removed: a rule that replaces only callable globals keeps
   * the set of names.
   */
  lemma {:induction false} ImportFrame(rule: Rule, globals: map<string, Symbol>, driver: Module, n: nat)
    requires ReplacesOnlyCallables(rule) && n <= |driver.entries|
    ensures Import(rule, globals, driver, n).globals.Keys == globals.Keys
    ensures forall k :: k in globals && !Touched(driver, n, k) ==> Import(rule, globals, driver, n).globals[k] == globals[k]
  {
    if n > 0 {
      ImportFrame(rule, globals, driver, n - 1);
      var before := Import(rule, globals, driver, n - 1);
      var (name, value) := driver.entries[n - 1];
      forall k | k in globals && !Touched(driver, n, k)
        ensures Import(rule, globals, driver, n).globals[k] == globals[k]
      {
      }
    }
  }

  /** Before the name at index `i` is reached, its global is as it was. */
  lemma {:induction false} ImportUntouched(rule: Rule, globals: map<string, Symbol>, driver: Module, n: nat, i: nat)
    requires DistinctNames(driver) && n <= i < |driver.entries|
    ensures Global(Import(rule, globals, driver, n).globals, driver.entries[i].0) == Global(globals, driver.entries[i].0)
  {
    if n > 0 {
      ImportUntouched(rule, globals, driver, n - 1, i);
      assert driver.entries[n - 1].0 != driver.entries[i].0;
    }
  }

  /** What the rule makes of the public name at index `i`, against the globals as they were. */
  function EffectAt(rule: Rule, globals: map<string, Symbol>, driver: Module, i: nat): Effect
    requires i < |driver.entries|
  {
    rule(Global(globals, driver.entries[i].0), driver.entries[i].1)
  }

  /** No public name before index `i` makes the rule raise. */
  predicate FirstRaise(rule: Rule, globals: map<string, Symbol>, driver: Module, i: nat)
    requires i <= |driver.entries|
  {
    forall j :: 0 <= j < i && !Private(driver.entries[j].0) ==> !EffectAt(rule, globals, driver, j).Raise?
  }

  /**
   * The loop raises exactly when the rule raises for one of the public
   * names, and then with the error of the first such name.
   */
  lemma {:induction false} ImportRaises(rule: Rule, globals: map<string, Symbol>, driver: Module, n: nat)
    requires DistinctNames(driver) && n <= |driver.entries|
    ensures var run := Import(rule, globals, driver, n);
      run.outcome.Err? <==>
        exists i :: 0 <= i < n && !Private(driver.entries[i].0) && EffectAt(rule, globals, driver, i).Raise?
    ensures var run := Import(rule, globals, driver, n);
      forall i :: 0 <= i < n && !Private(driver.entries[i].0) && EffectAt(rule, globals, driver, i).Raise? && FirstRaise(rule, globals, driver, i) ==>
        run.outcome == Err(EffectAt(rule, globals, driver, i).error)
  {
    if n > 0 {
      ImportRaises(rule, globals, driver, n - 1);
      ImportUntouched(rule, globals, driver, n - 1, n - 1);
    }
  }

  /**
   * When the loop completes, each public name the rule replaces holds the
   * rule's value, and each public name it skips keeps its global.
   */
  lemma {:induction false} ImportReplaces(rule: Rule, globals: map<string, Symbol>, driver: Module, n: nat)
    requires DistinctNames(driver) && n <= |driver.entries|
    requires Import(rule, globals, driver, n).outcome.Ok?
    ensures forall i :: 0 <= i < n && !Private(driver.entries[i].0) ==>
      match EffectAt(rule, globals, driver, i)
      case Replace(v) => driver.entries[i].0 in Import(rule, globals, driver, n).globals &&
        Import(rule, globals, driver, n).globals[driver.entries[i].0] == v
      case Skip => Global(Import(rule, globals, driver, n).globals, driver.entries[i].0) == Global(globals, driver.entries[i].0)
      case Raise(_) => false
  {
    if n > 0 {
      var before := Import(rule, globals, driver, n - 1);
      assert before.outcome.Ok?;
      ImportReplaces(rule, globals, driver, n - 1);
      ImportUntouched(rule, globals, driver, n - 1, n - 1);
      forall i | 0 <= i < n - 1
        ensures driver.entries[i].0 != driver.entries[n - 1].0
      {
      }
    }
  }

  /** Whether a signature check passes: both specifications known and equal. */
  function Compare(spec: Option<ArgSpec>, oldSpec: Option<ArgSpec>): (r: Option<string>)
    ensures r.None? <==> spec.Some? && oldSpec.Some? && spec.value == oldSpec.value
  {
    if spec.None? || oldSpec.None? then Some("TypeError")
    else if spec.value != oldSpec.value then Some("ImportError")
    else None
  }

  /**
   * The rule of _platform/__init__.py and osevent/__init__.py: a
   * non-callable global raises ImportError; a callable value must have the
   * global's argument specification; the value takes the global's
   * docstring (a value whose `__doc__` cannot be set raises
   * AttributeError) and replaces it.
   */
  function StubRule(g: Option<Symbol>, value: Symbol): (r: Effect)
    ensures g.None? ==> r == Skip
    ensures g.Some? && !Callable(g.value) ==> r == Raise("ImportError")
    ensures r.Replace? <==>
      g.Some? && Callable(g.value) && (Callable(value) ==> value.spec.Some? && value.spec == g.value.spec) && value.docWritable
    ensures r.Replace? ==> r.value == value.(doc := g.value.doc)
  {
    if g.None? then Skip
    else if !Callable(g.value) then Raise("ImportError")
    else if Callable(value) && Compare(value.spec, g.value.spec).Some? then Raise(Compare(value.spec, g.value.spec).value)
    else if !value.docWritable then Raise("AttributeError")
    else Replace(value.(doc := g.value.doc))
  }

  lemma StubRuleReplacesOnlyCallables()
    ensures ReplacesOnlyCallables(StubRule)
  {
  }

  /** A stub: a function with these arguments and a docstring. */
  function Stub(args: seq<string>, doc: string): Symbol
  {
    Symbol(Function, Some(args), None, Some(doc), true)
  }

  /** A driver function that fits a stub: a function with the same arguments. */
  predicate Fits(stub: Symbol, value: Symbol)
  {
    value.kind == Function && value.spec == stub.spec
  }

  /** A namespace whose globals a resolver rewrites. */
  class Namespace {
    /** `globals_dict` */
    var globals: map<string, Symbol>

    constructor (globals: map<string, Symbol>)
      ensures this.globals == globals
    {
      this.globals := globals;
    }

    /**
     * The loop over `dir(driver)`: each public name goes through `rule`;
     * a replacement is written at once, so a raise leaves the earlier
     * replacements in place.
     */
    method ImportSymbols(rule: Rule, driver: Module) returns (r: Result<()>)
      modifies this
      ensures var run := Import(rule, old(globals), driver, |driver.entries|);
        globals == run.globals && r == run.outcome
    {
      var i := 0;
      while i < |driver.entries|
        invariant i <= |driver.entries|
        invariant Import(rule, old(globals), driver, i) == Imported(globals, Ok(()))
      {
        var (name, value) := driver.entries[i];
        if !Private(name) {
          match rule(Global(globals, name), value)
          case Raise(e) =>
            ImportStops(rule, old(globals), driver, i + 1, |driver.entries|);
            return Err(e);
          case Replace(v) =>
            globals := globals[name := v];
          case Skip =>
        }
        i := i + 1;
      }
      r := Ok(());
    }
  }

  /** A directory listing entry: its name, whether it is a directory, whether it holds `__init__.py` or `__init__.pyc`. */
  datatype Entry = Entry(name: string, isDir: bool, hasInit: bool)

  /** `__all__` of a driver package: the directories whose names do not start with `_`, in listing order. */
  function Subpackages(listing: seq<Entry>): (r: seq<string>)
    ensures forall n :: n in r <==> exists e :: e in listing && e.isDir && !Private(e.name) && e.name == n
    ensures |r| <= |listing|
  {
    if listing == [] then []
    else
      var e := listing[0];
      (if e.isDir && !Private(e.name) then [e.name] else []) + Subpackages(listing[1..])
  }
}
