/**
 * dispatchers/__init__.py: `__all__` is `_names` of the package's file
 * listing, the module names of the public Python files, each once.
 */
module DispatcherNames {
  import opened Strings

  /** A file `_names` keeps: not starting with `_`, ending in `.py` or `.pyc`. */
  predicate Kept(f: string)
    requires f != []
  {
    f[0] != '_' && (EndsWith(f, ".py") || EndsWith(f, ".pyc"))
  }

  /** `file_name.rsplit('.', 1)[0]` */
  function Stem(f: string): string
  {
    BeforeLast(f, '.')
  }

  /** `_names(files)`: the stems of the kept files, as a set (the order of `list(set(...))` is arbitrary). */
  function Names(files: seq<string>): (r: set<string>)
    requires forall i :: 0 <= i < |files| ==> files[i] != []
    ensures |r| <= |files|
  {
    if files == [] then {}
    else
      var f := files[|files| - 1];
      Names(files[..|files| - 1]) + (if Kept(f) then {Stem(f)} else {})
  }

  /** The stem of a file ending in `.py` or `.pyc` is what comes before that extension. */
  lemma StemOfModule(stem: string, ext: string)
    requires ext == ".py" || ext == ".pyc"
    ensures Stem(stem + ext) == stem
  {
    var f := stem + ext;
    assert f[|stem|] == '.';
    assert forall j :: |stem| < j < |f| ==> f[j] != '.';
    assert LastIndexOf(f, '.') == |stem|;
  }

  /** A file ending in `.py` or `.pyc` is its stem followed by that extension. */
  lemma ModuleOfStem(f: string)
    requires EndsWith(f, ".py") || EndsWith(f, ".pyc")
    ensures f == Stem(f) + ".py" || f == Stem(f) + ".pyc"
  {
    var ext := if EndsWith(f, ".py") then ".py" else ".pyc";
    var stem := f[..|f| - |ext|];
    assert f == stem + ext;
    StemOfModule(stem, ext);
  }

  /**
   * A name is listed exactly when the listing holds a public file that is
   * the name followed by `.py` or `.pyc`.
   */
  lemma {:induction false} NamesMember(files: seq<string>, n: string)
    requires forall i :: 0 <= i < |files| ==> files[i] != []
    ensures n in Names(files) <==>
      exists i :: 0 <= i < |files| && files[i][0] != '_' && (files[i] == n + ".py" || files[i] == n + ".pyc")
  {
    if files != [] {
      var init := files[..|files| - 1];
      var f := files[|files| - 1];
      NamesMember(init, n);
      assert forall i :: 0 <= i < |init| ==> init[i] == files[i];
      if Kept(f) {
        ModuleOfStem(f);
      }
      if f[0] != '_' && (f == n + ".py" || f == n + ".pyc") {
        StemOfModule(n, if f == n + ".py" then ".py" else ".pyc");
      }
      if exists i :: (0 <= i < |files| && files[i][0] != '_' && (files[i] == n + ".py" || files[i] == n + ".pyc")) {
        var i :| 0 <= i < |files| && files[i][0] != '_' && (files[i] == n + ".py" || files[i] == n + ".pyc");
        if i < |init| {
          assert init[i] == files[i];
        }
      }
    }
  }

  /** A module compiled next to its source is listed once: `x.py` and `x.pyc` give only `x`. */
  lemma SourceAndCompiled(x: string)
    requires x == [] || x[0] != '_'
    ensures Names([x + ".py", x + ".pyc"]) == {x}
  {
    StemOfModule(x, ".py");
    StemOfModule(x, ".pyc");
    var files := [x + ".py", x + ".pyc"];
    assert files[..1] == [x + ".py"];
    assert files[..1][..0] == [];
  }
}
