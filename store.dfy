/**
 * The key-value store of store.py and configuration/__init__.py: a tree of
 * JSON dicts addressed by dotted item names such as `section.sub.value`.
 * The tree is read with `get`, written with `set` (which calls the notifier
 * only when a value really changes), and read or written in bulk with
 * `select`, `update` and `clear`.
 */
module Store {
  import opened Wrappers
  import opened Json
  import JsonValues = Json
  import opened Strings
  import Notifier
  import Seqs

  /** The parts of a dotted item name, `item.split('.')`. */
  function Path(item: string): (r: seq<string>)
    ensures |r| >= 1
  {
    Split(item, ".")
  }

  /**
   * `_set(target, item, value)` on the parts of `item`: the new tree and
   * whether the value was modified. Missing or None intermediate values
   * become new dicts; a value on the way that is not a dict, or a target
   * that is not one, is a ValueError. The last key is written only when
   * the new value differs (Python `!=`) from the previous one.
   */
  function SetIn(target: Json, parts: seq<string>, value: Json): (r: Result<(Json, bool)>)
    requires |parts| >= 1
    ensures r.Ok? ==> r.value.0.JObj?
    ensures r.Err? ==> r.error == "ValueError"
    decreases |parts|
  {
    if !target.JObj? then Err("ValueError")
    else if |parts| == 1 then
      if !PyEq(value, Get(target.fields, parts[0])) then Ok((JObj(Put(target.fields, parts[0], value)), true))
      else Ok((target, false))
    else
      var next := Get(target.fields, parts[0]);
      var child := if next == JNull then JObj([]) else next;
      match SetIn(child, parts[1..], value)
      case Err(e) => Err(e)
      case Ok((c, changed)) => Ok((JObj(Put(target.fields, parts[0], c)), changed))
  }

  /**
   * `get` on the parts of an item: None as soon as a part is missing or
   * None, and ValueError when it must look into a value that is not a dict.
   */
  function Lookup(value: Json, parts: seq<string>): (r: Result<Json>)
    ensures r.Err? ==> parts != [] && r.error == "ValueError"
  {
    if parts == [] then Ok(value)
    else if !value.JObj? then Err("ValueError")
    else
      var v := Get(value.fields, parts[0]);
      if v == JNull then Ok(JNull) else Lookup(v, parts[1..])
  }

  /** `_set` fails exactly where `get` fails: at a value on the path that is not a dict. */
  lemma {:induction false} SetInFailsLikeLookup(target: Json, parts: seq<string>, value: Json)
    requires |parts| >= 1
    ensures SetIn(target, parts, value).Err? <==> Lookup(target, parts).Err?
    decreases |parts|
  {
    if target.JObj? && |parts| > 1 {
      var next := Get(target.fields, parts[0]);
      var child := if next == JNull then JObj([]) else next;
      SetInFailsLikeLookup(child, parts[1..], value);
    }
  }

  /**
   * After `_set`, `get` returns the value written; when `_set` reports no
   * change, what `get` returns equals (Python `==`) the value.
   */
  lemma {:induction false} SetInThenLookup(target: Json, parts: seq<string>, value: Json)
    requires |parts| >= 1 && SetIn(target, parts, value).Ok?
    ensures var (t, changed) := SetIn(target, parts, value).value;
      Lookup(t, parts).Ok? &&
      (changed ==> Lookup(t, parts).value == value) &&
      (!changed ==> PyEq(value, Lookup(t, parts).value))
    decreases |parts|
  {
    if |parts| > 1 {
      var next := Get(target.fields, parts[0]);
      var child := if next == JNull then JObj([]) else next;
      SetInThenLookup(child, parts[1..], value);
    }
  }

  /** What `get` finds in a Python value is a Python value. */
  lemma {:induction false} LookupWellFormed(value: Json, parts: seq<string>)
    requires WellFormed(value) && Lookup(value, parts).Ok?
    ensures WellFormed(Lookup(value, parts).value)
  {
    if parts != [] {
      var v := Get(value.fields, parts[0]);
      if v != JNull {
        var i :| 0 <= i < |value.fields| && value.fields[i] == (parts[0], v);
        LookupWellFormed(v, parts[1..]);
      }
    }
  }

  /** Two paths diverge: at some index both have a part, and the parts differ. */
  predicate Diverge(p: seq<string>, q: seq<string>)
  {
    exists i :: 0 <= i < |p| && i < |q| && p[i] != q[i]
  }

  /** `_set` changes no item whose path diverges from the one written. */
  lemma {:induction false} SetInKeepsOthers(target: Json, parts: seq<string>, value: Json, q: seq<string>)
    requires |parts| >= 1 && SetIn(target, parts, value).Ok?
    requires Diverge(parts, q)
    ensures Lookup(SetIn(target, parts, value).value.0, q) == Lookup(target, q)
    decreases |parts|
  {
    var t := SetIn(target, parts, value).value.0;
    if q[0] == parts[0] {
      var i :| 0 <= i < |parts| && i < |q| && parts[i] != q[i];
      assert i > 0 && |parts| > 1;
      var next := Get(target.fields, parts[0]);
      var child := if next == JNull then JObj([]) else next;
      assert Diverge(parts[1..], q[1..]) by {
        assert parts[1..][i - 1] != q[1..][i - 1];
      }
      SetInKeepsOthers(child, parts[1..], value, q[1..]);
      if next == JNull {
        assert Lookup(child, q[1..]) == Ok(JNull);
      }
    }
  }

  /**
   * `_set` reports a change exactly when the value differs (Python `!=`)
   * from what `get` returned before it.
   */
  lemma {:induction false} SetInChanged(target: Json, parts: seq<string>, value: Json)
    requires |parts| >= 1 && SetIn(target, parts, value).Ok?
    ensures Lookup(target, parts).Ok?
    ensures SetIn(target, parts, value).value.1 <==> !PyEq(value, Lookup(target, parts).value)
    decreases |parts|
  {
    if |parts| > 1 {
      var next := Get(target.fields, parts[0]);
      var child := if next == JNull then JObj([]) else next;
      SetInChanged(child, parts[1..], value);
      if next == JNull {
        assert Lookup(child, parts[1..]) == Ok(JNull);
      }
    }
  }

  /** `_set` of a Python value into a Python value gives a Python value. */
  lemma {:induction false} SetInWellFormed(target: Json, parts: seq<string>, value: Json)
    requires |parts| >= 1 && SetIn(target, parts, value).Ok?
    requires WellFormed(target) && WellFormed(value)
    ensures WellFormed(SetIn(target, parts, value).value.0)
    decreases |parts|
  {
    if |parts| == 1 {
      if !PyEq(value, Get(target.fields, parts[0])) {
        PutWellFormed(target.fields, parts[0], value);
      }
    } else {
      var next := Get(target.fields, parts[0]);
      var child := if next == JNull then JObj([]) else next;
      if next != JNull {
        var i :| 0 <= i < |target.fields| && target.fields[i] == (parts[0], next);
      }
      SetInWellFormed(child, parts[1..], value);
      PutWellFormed(target.fields, parts[0], SetIn(child, parts[1..], value).value.0);
    }
  }

  /** `'.'.join((root, k)) if root else k`: the item name of key `k` below `root`. */
  function Dotted(root: string, k: string): string
  {
    if root == "" then k else root + "." + k
  }

  /**
   * `extract_items` below `root`: the item name of every value that is not
   * a dict. An empty dict contributes nothing.
   */
  function ExtractItems(value: Json, root: string): set<string>
    decreases value, 1
  {
    match value
    case JObj(fields) => FieldItems(value, root, 0)
    case _ => {root}
  }

  /** The items below the bindings of dict `d` from index `i` on. */
  function FieldItems(d: Json, root: string, i: nat): set<string>
    requires d.JObj? && i <= |d.fields|
    decreases d, 0, |d.fields| - i
  {
    if i == |d.fields| then {}
    else ExtractItems(d.fields[i].1, Dotted(root, d.fields[i].0)) + FieldItems(d, root, i + 1)
  }

  /** The paths to every value of `value` that is not a dict. */
  function LeafPaths(value: Json): set<seq<string>>
    decreases value, 1
  {
    match value
    case JObj(fields) => FieldPaths(value, 0)
    case _ => {[]}
  }

  function FieldPaths(d: Json, i: nat): set<seq<string>>
    requires d.JObj? && i <= |d.fields|
    decreases d, 0, |d.fields| - i
  {
    if i == |d.fields| then {}
    else (set p | p in LeafPaths(d.fields[i].1) :: [d.fields[i].0] + p) + FieldPaths(d, i + 1)
  }

  /** No key, at any depth, is empty or holds a '.', so item names and paths correspond. */
  predicate SimpleKeys(value: Json)
  {
    match value
    case JObj(fields) => forall i :: 0 <= i < |fields| ==>
      fields[i].0 != "" && '.' !in fields[i].0 && SimpleKeys(fields[i].1)
    case JArr(items) => true
    case _ => true
  }

  /** The item name of the path `p` below `root`. */
  function JoinUnder(root: string, p: seq<string>): string
  {
    if p == [] then root else Dotted(root, Join(p, "."))
  }

  lemma JoinUnderCons(root: string, k: string, p: seq<string>)
    requires k != ""
    ensures JoinUnder(root, [k] + p) == JoinUnder(Dotted(root, k), p)
  {
    if p != [] {
      assert ([k] + p)[1..] == p;
    }
  }

  /** Every item below `root` is the name of a leaf path. */
  lemma {:induction false} ItemsFromPaths(value: Json, root: string, item: string)
    requires SimpleKeys(value) && item in ExtractItems(value, root)
    ensures exists p :: p in LeafPaths(value) && item == JoinUnder(root, p)
    decreases value, 1
  {
    if value.JObj? {
      FieldItemsFromPaths(value, root, 0, item);
    } else {
      assert [] in LeafPaths(value);
    }
  }

  lemma {:induction false} FieldItemsFromPaths(d: Json, root: string, i: nat, item: string)
    requires d.JObj? && i <= |d.fields| && SimpleKeys(d) && item in FieldItems(d, root, i)
    ensures exists p :: p in FieldPaths(d, i) && item == JoinUnder(root, p)
    decreases d, 0, |d.fields| - i
  {
    var (k, v) := d.fields[i];
    if item in FieldItems(d, root, i + 1) {
      FieldItemsFromPaths(d, root, i + 1, item);
      var p :| p in FieldPaths(d, i + 1) && item == JoinUnder(root, p);
      assert p in FieldPaths(d, i);
    } else {
      ItemsFromPaths(v, Dotted(root, k), item);
      var p :| p in LeafPaths(v) && item == JoinUnder(Dotted(root, k), p);
      JoinUnderCons(root, k, p);
      assert [k] + p in FieldPaths(d, i);
    }
  }

  /** Every leaf path below `root` names an item. */
  lemma {:induction false} PathsToItems(value: Json, root: string, p: seq<string>)
    requires SimpleKeys(value) && p in LeafPaths(value)
    ensures JoinUnder(root, p) in ExtractItems(value, root)
    decreases value, 1
  {
    if value.JObj? {
      FieldPathsToItems(value, root, 0, p);
    }
  }

  lemma {:induction false} FieldPathsToItems(d: Json, root: string, i: nat, p: seq<string>)
    requires d.JObj? && i <= |d.fields| && SimpleKeys(d) && p in FieldPaths(d, i)
    ensures JoinUnder(root, p) in FieldItems(d, root, i)
    decreases d, 0, |d.fields| - i
  {
    var (k, v) := d.fields[i];
    if p in FieldPaths(d, i + 1) {
      FieldPathsToItems(d, root, i + 1, p);
    } else {
      var rest :| rest in LeafPaths(v) && p == [k] + rest;
      PathsToItems(v, Dotted(root, k), rest);
      JoinUnderCons(root, k, rest);
    }
  }

  /** The keys along a leaf path are the simple keys of the tree, and a dict's leaf paths are not empty. */
  lemma {:induction false} LeafPathsSimple(value: Json, p: seq<string>)
    requires SimpleKeys(value) && p in LeafPaths(value)
    ensures forall i :: 0 <= i < |p| ==> p[i] != "" && '.' !in p[i]
    ensures value.JObj? ==> p != []
    decreases value, 1
  {
    if value.JObj? {
      FieldPathsSimple(value, 0, p);
    }
  }

  lemma {:induction false} FieldPathsSimple(d: Json, i: nat, p: seq<string>)
    requires d.JObj? && i <= |d.fields| && SimpleKeys(d) && p in FieldPaths(d, i)
    ensures forall j :: 0 <= j < |p| ==> p[j] != "" && '.' !in p[j]
    ensures p != []
    decreases d, 0, |d.fields| - i
  {
    var (k, v) := d.fields[i];
    if p in FieldPaths(d, i + 1) {
      FieldPathsSimple(d, i + 1, p);
    } else {
      var rest :| rest in LeafPaths(v) && p == [k] + rest;
      LeafPathsSimple(v, rest);
      assert forall j :: 1 <= j < |p| ==> p[j] == rest[j - 1];
    }
  }

  /** The position in a dict of a path below it. */
  lemma {:induction false} FieldPathAt(d: Json, i: nat, p: seq<string>)
    requires d.JObj? && i <= |d.fields| && p in FieldPaths(d, i)
    ensures exists j :: i <= j < |d.fields| && p != [] && p[0] == d.fields[j].0 && p[1..] in LeafPaths(d.fields[j].1)
    decreases |d.fields| - i
  {
    if p in FieldPaths(d, i + 1) {
      FieldPathAt(d, i + 1, p);
    } else {
      var rest :| rest in LeafPaths(d.fields[i].1) && p == [d.fields[i].0] + rest;
      assert p[1..] == rest;
    }
  }

  /** Two different leaves of a Python value have diverging paths: no leaf lies under another. */
  lemma {:induction false} LeafPathsDiverge(value: Json, p: seq<string>, q: seq<string>)
    requires WellFormed(value) && p in LeafPaths(value) && q in LeafPaths(value) && p != q
    ensures Diverge(p, q)
    decreases value
  {
    if value.JObj? {
      FieldPathAt(value, 0, p);
      FieldPathAt(value, 0, q);
      var j1 :| 0 <= j1 < |value.fields| && p != [] && p[0] == value.fields[j1].0 && p[1..] in LeafPaths(value.fields[j1].1);
      var j2 :| 0 <= j2 < |value.fields| && q != [] && q[0] == value.fields[j2].0 && q[1..] in LeafPaths(value.fields[j2].1);
      if j1 == j2 {
        assert p == [p[0]] + p[1..] && q == [q[0]] + q[1..];
        LeafPathsDiverge(value.fields[j1].1, p[1..], q[1..]);
        var i :| 0 <= i < |p[1..]| && i < |q[1..]| && p[1..][i] != q[1..][i];
        assert p[i + 1] != q[i + 1];
      } else {
        assert p[0] != q[0];
      }
    }
  }

  /**
   * `items` is the set of dotted names of the leaves: with simple keys,
   * every item splits into a leaf path, and every leaf path joins into an
   * item.
   */
  lemma ItemsAreLeaves(data: Json)
    requires data.JObj? && SimpleKeys(data)
    ensures forall item :: item in ExtractItems(data, "") ==> Path(item) in LeafPaths(data)
    ensures forall p :: p in LeafPaths(data) ==> Join(p, ".") in ExtractItems(data, "")
  {
    forall item | item in ExtractItems(data, "") ensures Path(item) in LeafPaths(data) {
      ItemsFromPaths(data, "", item);
      var p :| p in LeafPaths(data) && item == JoinUnder("", p);
      LeafPathsSimple(data, p);
      SplitJoin(p, '.');
    }
    forall p | p in LeafPaths(data) ensures Join(p, ".") in ExtractItems(data, "") {
      LeafPathsSimple(data, p);
      PathsToItems(data, "", p);
    }
  }

  /** Every leaf path leads, through `get`, to the value that is not a dict. */
  lemma {:induction false} LeafPathLookup(value: Json, p: seq<string>)
    requires WellFormed(value) && p in LeafPaths(value)
    ensures Lookup(value, p).Ok? && !Lookup(value, p).value.JObj?
    decreases value, 1
  {
    if value.JObj? {
      FieldPathLookup(value, 0, p);
    }
  }

  lemma {:induction false} FieldPathLookup(d: Json, i: nat, p: seq<string>)
    requires d.JObj? && i <= |d.fields| && WellFormed(d) && p in FieldPaths(d, i)
    ensures Lookup(d, p).Ok? && !Lookup(d, p).value.JObj?
    decreases d, 0, |d.fields| - i
  {
    if i < |d.fields| {
      var (k, v) := d.fields[i];
      if p in FieldPaths(d, i + 1) {
        FieldPathLookup(d, i + 1, p);
      } else {
        var rest :| rest in LeafPaths(v) && p == [k] + rest;
        GetAt(d.fields, i);
        assert p[0] == k && p[1..] == rest;
        if v != JNull {
          LeafPathLookup(v, rest);
        }
      }
    }
  }

  /** The store's data: a dict, and a Python value. */
  predicate ValidData(data: Json)
  {
    data.JObj? && WellFormed(data)
  }

  /** The store after a bulk operation, the (item, value) pairs notified and the outcome. */
  datatype Run = Run(data: Json, notified: seq<(string, Json)>, outcome: Result<()>)

  /** One run followed by another. */
  function Then(first: Run, second: Run): Run
  {
    Run(second.data, first.notified + second.notified, second.outcome)
  }

  /**
   * `set(item, value)` on `data` as a run: the new data, a notification
   * when the value changed, or the ValueError with nothing changed.
   */
  function SetRun(data: Json, item: string, value: Json): (r: Run)
    ensures r.outcome == Ok(()) || r.outcome == Err("ValueError")
  {
    match SetIn(data, Path(item), value)
    case Err(_) => Run(data, [], Err("ValueError"))
    case Ok((d, changed)) => Run(d, if changed then [(item, value)] else [], Ok(()))
  }

  /**
   * The inner `update(value, target)` of `update`: a dict is walked key by
   * key, any other value is `set` at `target`, and at the top, where
   * `target` is empty, a value that is not a dict is a ValueError. The sets
   * before a ValueError stay done.
   */
  function UpdateRun(data: Json, value: Json, target: string): (r: Run)
    ensures r.outcome == Ok(()) || r.outcome == Err("ValueError")
    decreases value, 1
  {
    match value
    case JObj(fields) => FieldsRun(data, value, target, |fields|)
    case _ => if target != "" then SetRun(data, target, value) else Run(data, [], Err("ValueError"))
  }

  /**
   * The loop of the inner `update` over the first `n` bindings of dict `d`:
   * it stops at the first ValueError.
   */
  function FieldsRun(data: Json, d: Json, target: string, n: nat): (r: Run)
    requires d.JObj? && n <= |d.fields|
    ensures r.outcome == Ok(()) || r.outcome == Err("ValueError")
    decreases d, 0, n
  {
    if n == 0 then Run(data, [], Ok(()))
    else
      var before := FieldsRun(data, d, target, n - 1);
      if before.outcome.Err? then before
      else Then(before, UpdateRun(before.data, d.fields[n - 1].1, Dotted(target, d.fields[n - 1].0)))
  }

  /** After a ValueError the loop walks no further binding. */
  lemma {:induction false} FieldsStopped(data: Json, d: Json, target: string, i: nat, n: nat)
    requires d.JObj? && i <= n <= |d.fields| && FieldsRun(data, d, target, i).outcome.Err?
    ensures FieldsRun(data, d, target, n) == FieldsRun(data, d, target, i)
    decreases n
  {
    if i < n {
      FieldsStopped(data, d, target, i, n - 1);
    }
  }

  /** Every notification of `update` carries a value that is not a dict: only leaves are set. */
  lemma {:induction false} UpdateSetsLeaves(data: Json, value: Json, target: string)
    ensures forall n :: n in UpdateRun(data, value, target).notified ==> !n.1.JObj?
    decreases value, 1
  {
    if value.JObj? {
      FieldsSetLeaves(data, value, target, |value.fields|);
    }
  }

  lemma {:induction false} FieldsSetLeaves(data: Json, d: Json, target: string, n: nat)
    requires d.JObj? && n <= |d.fields|
    ensures forall x :: x in FieldsRun(data, d, target, n).notified ==> !x.1.JObj?
    decreases d, 0, n
  {
    if n > 0 {
      var before := FieldsRun(data, d, target, n - 1);
      FieldsSetLeaves(data, d, target, n - 1);
      if before.outcome.Ok? {
        UpdateSetsLeaves(before.data, d.fields[n - 1].1, Dotted(target, d.fields[n - 1].0));
      }
    }
  }

  /** `update` of a dict without bindings changes and notifies nothing. */
  lemma UpdateEmpty(data: Json, target: string)
    ensures UpdateRun(data, JObj([]), target) == Run(data, [], Ok(()))
  {
  }

  /** `update` of a value that is not a dict raises ValueError before any change. */
  lemma UpdateNotDict(data: Json, value: Json)
    requires !value.JObj?
    ensures UpdateRun(data, value, "") == Run(data, [], Err("ValueError"))
  {
  }

  /**
   * `update({k: v})` of a single leaf is `set(k, v)`: written, then
   * notified when it changed.
   */
  lemma UpdateOne(data: Json, k: string, v: Json)
    requires k != "" && !v.JObj?
    ensures UpdateRun(data, JObj([(k, v)]), "") == SetRun(data, k, v)
  {
    var d := JObj([(k, v)]);
    var first := UpdateRun(data, v, k);
    assert first == SetRun(data, k, v);
    assert FieldsRun(data, d, "", 0) == Run(data, [], Ok(()));
    assert [] + first.notified == first.notified;
  }

  /** Each leaf of `ls` one key further down, below `k`. */
  function Under(k: string, ls: seq<(seq<string>, Json)>): seq<(seq<string>, Json)>
  {
    seq(|ls|, j requires 0 <= j < |ls| => ([k] + ls[j].0, ls[j].1))
  }

  /**
   * The leaves of `value` in the order the inner `update` reaches them:
   * the path to each value that is not a dict, with that value.
   */
  function Leaves(value: Json): seq<(seq<string>, Json)>
    decreases value, 1
  {
    match value
    case JObj(fields) => FieldLeaves(value, |fields|)
    case _ => [([], value)]
  }

  /** The leaves below the first `n` bindings of dict `d`. */
  function FieldLeaves(d: Json, n: nat): seq<(seq<string>, Json)>
    requires d.JObj? && n <= |d.fields|
    decreases d, 0, n
  {
    if n == 0 then []
    else FieldLeaves(d, n - 1) + Under(d.fields[n - 1].0, Leaves(d.fields[n - 1].1))
  }

  /** The item name below `root`, and the value, of each leaf of `ls`. */
  function Named(root: string, ls: seq<(seq<string>, Json)>): seq<(string, Json)>
  {
    seq(|ls|, j requires 0 <= j < |ls| => (JoinUnder(root, ls[j].0), ls[j].1))
  }

  /** The dotted item and the value of each leaf of `value`, in dict order. */
  function LeafItems(value: Json): seq<(string, Json)>
  {
    Named("", Leaves(value))
  }

  /** Every listed leaf is a leaf path of the value, and `get` finds the listed value there. */
  lemma {:induction false} LeavesIn(value: Json, e: (seq<string>, Json))
    requires e in Leaves(value)
    ensures e.0 in LeafPaths(value)
    ensures WellFormed(value) ==> Lookup(value, e.0) == Ok(e.1)
    decreases value, 1
  {
    if value.JObj? {
      FieldLeavesIn(value, |value.fields|, e);
    }
  }

  lemma {:induction false} FieldLeavesIn(d: Json, n: nat, e: (seq<string>, Json))
    requires d.JObj? && n <= |d.fields| && e in FieldLeaves(d, n)
    ensures e.0 in LeafPaths(d)
    ensures WellFormed(d) ==> Lookup(d, e.0) == Ok(e.1)
    decreases d, 0, n
  {
    var (k, v) := d.fields[n - 1];
    if e in FieldLeaves(d, n - 1) {
      FieldLeavesIn(d, n - 1, e);
    } else {
      assert e in Under(k, Leaves(v));
      var j :| 0 <= j < |Leaves(v)| && e == ([k] + Leaves(v)[j].0, Leaves(v)[j].1);
      var s := Leaves(v)[j].0;
      assert Leaves(v)[j] in Leaves(v);
      LeavesIn(v, Leaves(v)[j]);
      LeafBelow(d, n - 1, e.0);
      if WellFormed(d) {
        GetAt(d.fields, n - 1);
        assert e.0[0] == k && e.0[1..] == s;
      }
    }
  }

  /** Every leaf path of the value is listed. */
  lemma {:induction false} LeavesCover(value: Json, p: seq<string>)
    requires p in LeafPaths(value)
    ensures exists e :: e in Leaves(value) && e.0 == p
    decreases value, 1
  {
    if value.JObj? {
      FieldPathAt(value, 0, p);
      var m :| 0 <= m < |value.fields| && p != [] && p[0] == value.fields[m].0 && p[1..] in LeafPaths(value.fields[m].1);
      FieldLeavesCover(value, |value.fields|, m, p[1..]);
      assert p == [p[0]] + p[1..];
    } else {
      assert Leaves(value)[0] in Leaves(value);
    }
  }

  lemma {:induction false} FieldLeavesCover(d: Json, n: nat, m: nat, s: seq<string>)
    requires d.JObj? && m < n <= |d.fields| && s in LeafPaths(d.fields[m].1)
    ensures exists e :: e in FieldLeaves(d, n) && e.0 == [d.fields[m].0] + s
    decreases d, 0, n
  {
    if m < n - 1 {
      FieldLeavesCover(d, n - 1, m, s);
      var e :| e in FieldLeaves(d, n - 1) && e.0 == [d.fields[m].0] + s;
      assert e in FieldLeaves(d, n);
    } else {
      var (k, v) := d.fields[m];
      LeavesCover(v, s);
      var e :| e in Leaves(v) && e.0 == s;
      var j :| 0 <= j < |Leaves(v)| && Leaves(v)[j] == e;
      var u := Under(k, Leaves(v));
      assert u[j] == ([k] + s, e.1) && u[j] in u;
      assert u[j] in FieldLeaves(d, n);
    }
  }

  /** Every listed leaf of a dict lies below one of its first `n` keys. */
  lemma {:induction false} FieldLeavesHead(d: Json, n: nat, e: (seq<string>, Json))
    requires d.JObj? && n <= |d.fields| && e in FieldLeaves(d, n)
    ensures e.0 != [] && exists m :: 0 <= m < n && e.0[0] == d.fields[m].0
    decreases n
  {
    if e in FieldLeaves(d, n - 1) {
      FieldLeavesHead(d, n - 1, e);
    } else {
      var u := Under(d.fields[n - 1].0, Leaves(d.fields[n - 1].1));
      var j :| 0 <= j < |u| && u[j] == e;
    }
  }

  /** Paths that diverge still diverge one key further down. */
  lemma DivergeCons(k: string, p: seq<string>, q: seq<string>)
    requires Diverge(p, q)
    ensures Diverge([k] + p, [k] + q)
  {
    var i :| 0 <= i < |p| && i < |q| && p[i] != q[i];
    assert ([k] + p)[i + 1] == p[i] && ([k] + q)[i + 1] == q[i];
  }

  /** Divergence does not depend on the order of the paths. */
  lemma DivergeSym(p: seq<string>, q: seq<string>)
    requires Diverge(p, q)
    ensures Diverge(q, p)
  {
    var i :| 0 <= i < |p| && i < |q| && p[i] != q[i];
  }

  /** The listed leaves of a Python value lie apart: any two paths diverge. */
  lemma {:induction false} LeavesApart(value: Json)
    requires WellFormed(value)
    ensures forall i, j :: 0 <= i < j < |Leaves(value)| ==> Diverge(Leaves(value)[i].0, Leaves(value)[j].0)
    decreases value, 1
  {
    if value.JObj? {
      FieldLeavesApart(value, |value.fields|);
    }
  }

  lemma {:induction false} FieldLeavesApart(d: Json, n: nat)
    requires d.JObj? && WellFormed(d) && n <= |d.fields|
    ensures forall i, j :: 0 <= i < j < |FieldLeaves(d, n)| ==> Diverge(FieldLeaves(d, n)[i].0, FieldLeaves(d, n)[j].0)
    decreases d, 0, n
  {
    if n > 0 {
      var (k, v) := d.fields[n - 1];
      var a := FieldLeaves(d, n - 1);
      var u := Under(k, Leaves(v));
      var all := FieldLeaves(d, n);
      assert all == a + u;
      FieldLeavesApart(d, n - 1);
      LeavesApart(v);
      forall i, j | 0 <= i < j < |all| ensures Diverge(all[i].0, all[j].0) {
        if j < |a| {
          assert all[i] == a[i] && all[j] == a[j];
        } else if i < |a| {
          assert all[i] == a[i] && a[i] in a;
          FieldLeavesHead(d, n - 1, a[i]);
          var m :| 0 <= m < n - 1 && a[i].0[0] == d.fields[m].0;
          assert all[j].0[0] == k;
        } else {
          DivergeCons(k, Leaves(v)[i - |a|].0, Leaves(v)[j - |a|].0);
        }
      }
    }
  }

  /** `set` of each (item, value) of `sets` in turn, stopping at the first ValueError. */
  function SetsRun(data: Json, sets: seq<(string, Json)>): Run
    decreases |sets|
  {
    if sets == [] then Run(data, [], Ok(()))
    else
      var first := SetRun(data, sets[0].0, sets[0].1);
      if first.outcome.Err? then first else Then(first, SetsRun(first.data, sets[1..]))
  }

  /** Running the sets of `a + b` is running those of `a`, then, unless that failed, those of `b`. */
  lemma {:induction false} SetsAppend(data: Json, a: seq<(string, Json)>, b: seq<(string, Json)>)
    ensures var ra := SetsRun(data, a);
      SetsRun(data, a + b) == if ra.outcome.Err? then ra else Then(ra, SetsRun(ra.data, b))
    decreases |a|
  {
    if a == [] {
      assert a + b == b;
      assert [] + SetsRun(data, b).notified == SetsRun(data, b).notified;
    } else {
      assert (a + b)[0] == a[0] && (a + b)[1..] == a[1..] + b;
      var first := SetRun(data, a[0].0, a[0].1);
      if first.outcome.Ok? {
        SetsAppend(first.data, a[1..], b);
        var rest := SetsRun(first.data, a[1..]);
        if rest.outcome.Ok? {
          Seqs.ConcatAssoc(first.notified, rest.notified, SetsRun(rest.data, b).notified);
        }
      }
    }
  }

  lemma NamedAppend(root: string, a: seq<(seq<string>, Json)>, b: seq<(seq<string>, Json)>)
    ensures Named(root, a + b) == Named(root, a) + Named(root, b)
  {
    assert forall j :: 0 <= j < |a + b| ==> (a + b)[j] == if j < |a| then a[j] else b[j - |a|];
  }

  lemma NamedUnder(root: string, k: string, ls: seq<(seq<string>, Json)>)
    requires k != ""
    ensures Named(root, Under(k, ls)) == Named(Dotted(root, k), ls)
  {
    forall j | 0 <= j < |ls| ensures Named(root, Under(k, ls))[j] == Named(Dotted(root, k), ls)[j] {
      JoinUnderCons(root, k, ls[j].0);
    }
  }

  /**
   * The inner `update` below `target` is `set` of each leaf of the value,
   * under its dotted item name, in dict order: with simple keys, for a
   * dict, or for any value below a non-empty target.
   */
  lemma {:induction false} UpdateFlat(data: Json, value: Json, target: string)
    requires SimpleKeys(value) && (target != "" || value.JObj?)
    ensures UpdateRun(data, value, target) == SetsRun(data, Named(target, Leaves(value)))
    decreases value, 1
  {
    if value.JObj? {
      FieldsFlat(data, value, target, |value.fields|);
    } else {
      var run := SetRun(data, target, value);
      assert Named(target, Leaves(value)) == [(target, value)];
      assert run.notified + [] == run.notified;
    }
  }

  lemma {:induction false} FieldsFlat(data: Json, d: Json, target: string, n: nat)
    requires d.JObj? && SimpleKeys(d) && n <= |d.fields|
    ensures FieldsRun(data, d, target, n) == SetsRun(data, Named(target, FieldLeaves(d, n)))
    decreases d, 0, n
  {
    if n > 0 {
      var (k, v) := d.fields[n - 1];
      FieldsFlat(data, d, target, n - 1);
      var a := Named(target, FieldLeaves(d, n - 1));
      var b := Named(Dotted(target, k), Leaves(v));
      NamedAppend(target, FieldLeaves(d, n - 1), Under(k, Leaves(v)));
      NamedUnder(target, k, Leaves(v));
      SetsAppend(data, a, b);
      var before := FieldsRun(data, d, target, n - 1);
      if before.outcome.Ok? {
        UpdateFlat(before.data, v, Dotted(target, k));
      }
    }
  }

  /** The items of `sets` lie apart: the paths of any two diverge. */
  predicate Apart(sets: seq<(string, Json)>)
  {
    forall i, j :: 0 <= i < j < |sets| ==> Diverge(Path(sets[i].0), Path(sets[j].0))
  }

  /**
   * The (item, value) pairs of `sets` whose value differs (Python `!=`)
   * from what `get` finds for the item in `data`.
   */
  function Changed(data: Json, sets: seq<(string, Json)>): seq<(string, Json)>
    decreases |sets|
  {
    if sets == [] then []
    else
      var found := Lookup(data, Path(sets[0].0));
      (if found.Ok? && !PyEq(sets[0].1, found.value) then [sets[0]] else []) + Changed(data, sets[1..])
  }

  /** What changed depends only on what `get` finds for the items. */
  lemma {:induction false} ChangedSame(d1: Json, d2: Json, sets: seq<(string, Json)>)
    requires forall i :: 0 <= i < |sets| ==> Lookup(d1, Path(sets[i].0)) == Lookup(d2, Path(sets[i].0))
    ensures Changed(d1, sets) == Changed(d2, sets)
    decreases |sets|
  {
    if sets != [] {
      assert Lookup(d1, Path(sets[0].0)) == Lookup(d2, Path(sets[0].0));
      assert forall i :: 0 <= i < |sets[1..]| ==> sets[1..][i] == sets[i + 1];
      ChangedSame(d1, d2, sets[1..]);
    }
  }

  /** Sets of items whose paths diverge from `q` leave what `get` finds at `q` alone. */
  lemma {:induction false} SetsKeep(data: Json, sets: seq<(string, Json)>, q: seq<string>)
    requires forall i :: 0 <= i < |sets| ==> Diverge(Path(sets[i].0), q)
    ensures Lookup(SetsRun(data, sets).data, q) == Lookup(data, q)
    decreases |sets|
  {
    if sets != [] {
      var first := SetRun(data, sets[0].0, sets[0].1);
      if first.outcome.Ok? {
        SetInKeepsOthers(data, Path(sets[0].0), sets[0].1, q);
        assert forall i :: 0 <= i < |sets[1..]| ==> sets[1..][i] == sets[i + 1];
        SetsKeep(first.data, sets[1..], q);
      }
    }
  }

  /**
   * `set` of items that lie apart, each found by `get` without a
   * ValueError: all succeed, each item reads back its value (Python `==`),
   * and exactly the items whose value changed are notified, in order.
   */
  lemma {:induction false} SetsSpec(data: Json, sets: seq<(string, Json)>)
    requires Apart(sets)
    requires forall i :: 0 <= i < |sets| ==> Lookup(data, Path(sets[i].0)).Ok? && WellFormed(sets[i].1)
    ensures var run := SetsRun(data, sets);
      run.outcome == Ok(()) && run.notified == Changed(data, sets) &&
      forall i :: 0 <= i < |sets| ==>
        Lookup(run.data, Path(sets[i].0)).Ok? && PyEq(sets[i].1, Lookup(run.data, Path(sets[i].0)).value)
    decreases |sets|
  {
    if sets != [] {
      var p := Path(sets[0].0);
      var v := sets[0].1;
      SetInFailsLikeLookup(data, p, v);
      var first := SetRun(data, sets[0].0, v);
      var rest := sets[1..];
      assert forall i :: 0 <= i < |rest| ==> rest[i] == sets[i + 1];
      forall i | 0 <= i < |rest| ensures Lookup(first.data, Path(rest[i].0)) == Lookup(data, Path(rest[i].0)) {
        assert Diverge(p, Path(sets[i + 1].0));
        SetInKeepsOthers(data, p, v, Path(rest[i].0));
      }
      SetsSpec(first.data, rest);
      ChangedSame(first.data, data, rest);
      SetInChanged(data, p, v);
      var run := SetsRun(data, sets);
      assert run == Then(first, SetsRun(first.data, rest));
      SetInThenLookup(data, p, v);
      PyEqRefl(v);
      forall i | 0 <= i < |rest| ensures Diverge(Path(rest[i].0), p) {
        assert Diverge(p, Path(sets[i + 1].0));
        DivergeSym(p, Path(rest[i].0));
      }
      SetsKeep(first.data, rest, p);
    }
  }

  /**
   * The main promise of `update(value)`: for a dict of Python values with
   * simple keys, on data in which `get` finds every leaf path of it without
   * a ValueError, it succeeds; every leaf of the value reads back from the
   * new data (Python `==`); the notifications are exactly the leaves whose
   * value differed, as dotted items, in dict order; and what `get` finds at
   * a path apart from every leaf is unchanged.
   */
  lemma UpdateSpec(data: Json, value: Json)
    requires value.JObj? && WellFormed(value) && SimpleKeys(value)
    requires forall p :: p in LeafPaths(value) ==> Lookup(data, p).Ok?
    ensures var run := UpdateRun(data, value, "");
      run.outcome == Ok(()) &&
      run.notified == Changed(data, LeafItems(value)) &&
      (forall p :: p in LeafPaths(value) ==>
        Lookup(value, p).Ok? && Lookup(run.data, p).Ok? && PyEq(Lookup(value, p).value, Lookup(run.data, p).value)) &&
      (forall q :: (forall p :: p in LeafPaths(value) ==> Diverge(p, q)) ==> Lookup(run.data, q) == Lookup(data, q))
  {
    var ls := Leaves(value);
    var sets := LeafItems(value);
    UpdateFlat(data, value, "");
    LeafItemsPaths(value);
    LeafItemsApart(value);
    SetsSpec(data, sets);
    var run := UpdateRun(data, value, "");
    forall p | p in LeafPaths(value)
      ensures Lookup(value, p).Ok? && Lookup(run.data, p).Ok? && PyEq(Lookup(value, p).value, Lookup(run.data, p).value)
    {
      LeavesCover(value, p);
      var e :| e in ls && e.0 == p;
      var j :| 0 <= j < |ls| && ls[j] == e;
    }
    forall q | forall p :: p in LeafPaths(value) ==> Diverge(p, q)
      ensures Lookup(run.data, q) == Lookup(data, q)
    {
      SetsKeep(data, sets, q);
    }
  }

  /** Each dotted leaf item splits back into its leaf path, where `get` finds its value. */
  lemma LeafItemsPaths(value: Json)
    requires value.JObj? && WellFormed(value) && SimpleKeys(value)
    ensures |LeafItems(value)| == |Leaves(value)|
    ensures forall j :: 0 <= j < |Leaves(value)| ==>
      Path(LeafItems(value)[j].0) == Leaves(value)[j].0 && Leaves(value)[j].0 in LeafPaths(value) &&
      Lookup(value, Leaves(value)[j].0) == Ok(LeafItems(value)[j].1) && WellFormed(LeafItems(value)[j].1)
  {
    var ls := Leaves(value);
    forall j | 0 <= j < |ls|
      ensures Path(LeafItems(value)[j].0) == ls[j].0 && ls[j].0 in LeafPaths(value) &&
        Lookup(value, ls[j].0) == Ok(LeafItems(value)[j].1) && WellFormed(LeafItems(value)[j].1)
    {
      assert ls[j] in ls;
      LeavesIn(value, ls[j]);
      LeafPathsSimple(value, ls[j].0);
      SplitJoin(ls[j].0, '.');
      LookupWellFormed(value, ls[j].0);
    }
  }

  /** The dotted leaf items of a dict of Python values with simple keys lie apart. */
  lemma LeafItemsApart(value: Json)
    requires value.JObj? && WellFormed(value) && SimpleKeys(value)
    ensures Apart(LeafItems(value))
  {
    LeafItemsPaths(value);
    LeavesApart(value);
  }

  /**
   * `select(*items)` as a fold: look each item up, and `_set` the values
   * that are not None into the result; a ValueError from either stops it.
   */
  function SelectFrom(data: Json, items: seq<string>, result: Json): (r: Result<Json>)
    ensures r.Err? ==> r.error == "ValueError"
    ensures r.Ok? && result.JObj? ==> r.value.JObj?
  {
    if items == [] then Ok(result)
    else match Lookup(data, Path(items[0]))
      case Err(e) => Err(e)
      case Ok(v) =>
        if v == JNull then SelectFrom(data, items[1..], result)
        else match SetIn(result, Path(items[0]), v)
          case Err(e) => Err(e)
          case Ok((t, _)) => SelectFrom(data, items[1..], t)
  }

  /** Unset items are left out: selecting only unset items gives back the result untouched. */
  lemma {:induction false} SelectUnset(data: Json, items: seq<string>, result: Json)
    requires forall i :: 0 <= i < |items| ==> Lookup(data, Path(items[i])) == Ok(JNull)
    ensures SelectFrom(data, items, result) == Ok(result)
  {
    if items != [] {
      assert Lookup(data, Path(items[0])) == Ok(JNull);
      SelectUnset(data, items[1..], result);
    }
  }

  /**
   * The last item selected is in the result with its value (equal by
   * Python `==`), and a ValueError on the way through `data` makes the
   * whole selection fail.
   */
  lemma {:induction false} SelectLast(data: Json, items: seq<string>, result: Json)
    requires WellFormed(data) && items != [] && SelectFrom(data, items, result).Ok?
    ensures var v := Lookup(data, Path(items[|items| - 1]));
      v.Ok? && (v.value != JNull ==>
        var got := Lookup(SelectFrom(data, items, result).value, Path(items[|items| - 1]));
        got.Ok? && PyEq(v.value, got.value))
  {
    var v := Lookup(data, Path(items[0]));
    var next := if v.value == JNull then result else SetIn(result, Path(items[0]), v.value).value.0;
    assert SelectFrom(data, items, result) == SelectFrom(data, items[1..], next);
    if |items| == 1 {
      if v.value != JNull {
        SetInThenLookup(result, Path(items[0]), v.value);
        var (t, changed) := SetIn(result, Path(items[0]), v.value).value;
        if changed {
          LookupWellFormed(data, Path(items[0]));
          PyEqRefl(v.value);
        }
      }
    } else {
      assert items[1..][|items[1..]| - 1] == items[|items| - 1];
      SelectLast(data, items[1..], next);
    }
  }

  /**
   * `r` holds nothing that `d` does not hold at the same place: each key of
   * a dict in `r` is looked up in the dict at the same place in `d`, and
   * every other value of `r` is the value `d` has there.
   */
  predicate Within(r: Json, d: Json)
  {
    match r
    case JObj(fs) => d.JObj? && forall i :: 0 <= i < |fs| ==> Within(fs[i].1, Get(d.fields, fs[i].0))
    case _ => r == d
  }

  /** `w` is `v` up to the order of dict keys: the same keys, each holding the same value up to that order. */
  predicate Same(w: Json, v: Json)
    decreases v
  {
    match v
    case JObj(fs) => w.JObj? && KeySet(w.fields) == KeySet(fs) &&
      forall i :: 0 <= i < |fs| ==> Same(Get(w.fields, fs[i].0), fs[i].1)
    case _ => w == v
  }

  /** A Python value is within itself. */
  lemma {:induction false} WithinRefl(v: Json)
    requires WellFormed(v)
    ensures Within(v, v)
  {
    if v.JObj? {
      forall i | 0 <= i < |v.fields| ensures Within(v.fields[i].1, Get(v.fields, v.fields[i].0)) {
        GetAt(v.fields, i);
        WithinRefl(v.fields[i].1);
      }
    }
  }

  /** A Python value is the same as itself. */
  lemma {:induction false} SameRefl(v: Json)
    requires WellFormed(v)
    ensures Same(v, v)
  {
    if v.JObj? {
      forall i | 0 <= i < |v.fields| ensures Same(Get(v.fields, v.fields[i].0), v.fields[i].1) {
        GetAt(v.fields, i);
        SameRefl(v.fields[i].1);
      }
    }
  }

  /** What is the same as a Python value equals it by Python `==`. */
  lemma {:induction false} SamePyEq(w: Json, v: Json)
    requires WellFormed(v) && Same(w, v)
    ensures PyEq(v, w)
    decreases v
  {
    if v.JObj? {
      forall j | 0 <= j < |v.fields| ensures PyEq(v.fields[j].1, Get(w.fields, v.fields[j].0)) {
        SamePyEq(Get(w.fields, v.fields[j].0), v.fields[j].1);
      }
      FieldsEqAll(v, w.fields, 0);
    } else {
      PyEqRefl(v);
    }
  }

  /** Bindings that each equal the binding of their key in `fs` make `FieldsEq` hold. */
  lemma {:induction false} FieldsEqAll(a: Json, fs: seq<(string, Json)>, i: nat)
    requires a.JObj? && i <= |a.fields|
    requires forall j :: i <= j < |a.fields| ==> PyEq(a.fields[j].1, Get(fs, a.fields[j].0))
    ensures FieldsEq(a, fs, i)
    decreases |a.fields| - i
  {
    if i < |a.fields| {
      FieldsEqAll(a, fs, i + 1);
    }
  }

  /** The bindings of a dict compared from `i` on include binding `j`. */
  lemma {:induction false} FieldsEqAt(a: Json, fs: seq<(string, Json)>, i: nat, j: nat)
    requires a.JObj? && i <= j < |a.fields| && FieldsEq(a, fs, i)
    ensures PyEq(a.fields[j].1, Get(fs, a.fields[j].0))
    decreases j - i
  {
    if i < j {
      FieldsEqAt(a, fs, i + 1, j);
    }
  }

  /** A value within a Python value and equal to it by Python `==` is the same as it. */
  lemma {:induction false} PyEqWithinSame(v: Json, w: Json)
    requires WellFormed(v) && PyEq(v, w) && Within(w, v)
    ensures Same(w, v)
  {
    if v.JObj? {
      forall i | 0 <= i < |v.fields| ensures Same(Get(w.fields, v.fields[i].0), v.fields[i].1) {
        FieldsEqAt(v, w.fields, 0, i);
        var x := Get(w.fields, v.fields[i].0);
        if x != JNull {
          var j :| 0 <= j < |w.fields| && w.fields[j] == (v.fields[i].0, x);
          GetAt(v.fields, i);
          PyEqWithinSame(v.fields[i].1, x);
        }
      }
    }
  }

  /** What `get` finds, other than None, in a value within `d` is within what it finds in `d`. */
  lemma {:induction false} WithinLookup(r: Json, d: Json, p: seq<string>)
    requires Within(r, d) && Lookup(r, p).Ok? && Lookup(r, p).value != JNull
    ensures Lookup(d, p).Ok? && Within(Lookup(r, p).value, Lookup(d, p).value)
  {
    if p != [] {
      var x := Get(r.fields, p[0]);
      var j :| 0 <= j < |r.fields| && r.fields[j] == (p[0], x);
      WithinLookup(x, Get(d.fields, p[0]), p[1..]);
    }
  }

  /** `d[k] = c` keeps a dict within `d` when `c` is within what `d` has at `k`. */
  lemma PutWithin(fs: seq<(string, Json)>, d: Json, k: string, c: Json)
    requires d.JObj? && Within(JObj(fs), d) && Within(c, Get(d.fields, k))
    ensures Within(JObj(Put(fs, k, c)), d)
  {
    var r := Put(fs, k, c);
    forall i | 0 <= i < |r| ensures Within(r[i].1, Get(d.fields, r[i].0)) {
      assert r[i] in r;
      if r[i] != (k, c) {
        var j :| 0 <= j < |fs| && fs[j] == r[i];
      }
    }
  }

  /**
   * `_set` of what `get` finds, other than None, in a Python value `d`,
   * into a dict within `d`, succeeds and leaves the dict within `d`.
   */
  lemma {:induction false} SetWithin(r: Json, d: Json, p: seq<string>, v: Json)
    requires r.JObj? && WellFormed(d) && Within(r, d) && |p| >= 1 && Lookup(d, p) == Ok(v) && v != JNull
    ensures SetIn(r, p, v).Ok? && Within(SetIn(r, p, v).value.0, d)
    decreases |p|
  {
    var k := p[0];
    var dk := Get(d.fields, k);
    var next := Get(r.fields, k);
    var i :| 0 <= i < |d.fields| && d.fields[i] == (k, dk);
    if next != JNull {
      var j :| 0 <= j < |r.fields| && r.fields[j] == (k, next);
    }
    if |p| == 1 {
      if !PyEq(v, next) {
        WithinRefl(dk);
        PutWithin(r.fields, d, k, v);
      }
    } else {
      var child := if next == JNull then JObj([]) else next;
      SetWithin(child, dk, p[1..], v);
      PutWithin(r.fields, d, k, SetIn(child, p[1..], v).value.0);
    }
  }

  /** `w[k] = c` keeps `w` the same as `v` when `c` is the same as what `v` has at `k`. */
  lemma SamePut(w: Json, v: Json, k: string, c: Json)
    requires v.JObj? && WellFormed(v) && Same(w, v) && Get(v.fields, k) != JNull && Same(c, Get(v.fields, k))
    ensures Same(JObj(Put(w.fields, k, c)), v)
  {
    var fs := Put(w.fields, k, c);
    GetKey(v.fields, k);
    PutSameKeys(w.fields, k, c);
    forall j | 0 <= j < |v.fields| ensures Same(Get(fs, v.fields[j].0), v.fields[j].1) {
      SamePutAt(w, v, k, c, j);
    }
  }

  /** A key `get` finds a value for is a key of the dict. */
  lemma GetKey(fs: seq<(string, Json)>, k: string)
    requires Get(fs, k) != JNull
    ensures k in KeySet(fs)
  {
    var i :| 0 <= i < |fs| && fs[i] == (k, Get(fs, k));
    assert Keys(fs)[i] == k;
  }

  /** `d[k] = c` for a key already in `d` keeps its keys. */
  lemma PutSameKeys(fs: seq<(string, Json)>, k: string, c: Json)
    requires k in KeySet(fs)
    ensures KeySet(Put(fs, k, c)) == KeySet(fs)
  {
    PutKeys(fs, k, c);
  }

  /** The binding at `j` of `v` after `w[k] = c`, as `SamePut` needs it. */
  lemma SamePutAt(w: Json, v: Json, k: string, c: Json, j: nat)
    requires v.JObj? && WellFormed(v) && j < |v.fields| && w.JObj?
    requires Same(Get(w.fields, v.fields[j].0), v.fields[j].1) && Same(c, Get(v.fields, k))
    ensures Same(Get(Put(w.fields, k, c), v.fields[j].0), v.fields[j].1)
  {
    if v.fields[j].0 == k {
      GetAt(v.fields, j);
    }
  }

  /** `_set` of what `get` finds below `v`, into a value the same as `v`, keeps it the same as `v`. */
  lemma {:induction false} SameSetIn(w: Json, v: Json, p: seq<string>, x: Json)
    requires WellFormed(v) && Same(w, v) && |p| >= 1 && Lookup(v, p) == Ok(x) && x != JNull
    ensures SetIn(w, p, x).Ok? && Same(SetIn(w, p, x).value.0, v)
    decreases |p|
  {
    var k := p[0];
    var vk := Get(v.fields, k);
    var i :| 0 <= i < |v.fields| && v.fields[i] == (k, vk);
    var wk := Get(w.fields, k);
    assert Same(wk, vk);
    if |p| == 1 {
      if !PyEq(x, wk) {
        SameRefl(x);
        SamePut(w, v, k, x);
      }
    } else {
      SameSetIn(wk, vk, p[1..], x);
      SamePut(w, v, k, SetIn(wk, p[1..], x).value.0);
    }
  }

  /**
   * Selecting the item at `q` keeps what was selected at `p`: both values
   * come from the same Python value `d`, so where the paths meet they agree.
   */
  lemma {:induction false} SelectKeeps(r: Json, d: Json, q: seq<string>, p: seq<string>)
    requires r.JObj? && WellFormed(d) && Within(r, d) && |q| >= 1 && |p| >= 1
    requires Lookup(d, q).Ok? && Lookup(d, q).value != JNull
    requires Lookup(d, p).Ok? && Lookup(d, p).value != JNull
    requires Lookup(r, p).Ok? && Same(Lookup(r, p).value, Lookup(d, p).value)
    ensures SetIn(r, q, Lookup(d, q).value).Ok?
    ensures var r' := SetIn(r, q, Lookup(d, q).value).value.0;
      Lookup(r', p).Ok? && Same(Lookup(r', p).value, Lookup(d, p).value)
    decreases |q|
  {
    var x := Lookup(d, q).value;
    SetWithin(r, d, q, x);
    var k := q[0];
    if p[0] != k {
      assert Diverge(q, p) by { assert q[0] != p[0]; }
      SetInKeepsOthers(r, q, x, p);
    } else {
      var dk := Get(d.fields, k);
      var next := Get(r.fields, k);
      var j :| 0 <= j < |d.fields| && d.fields[j] == (k, dk);
      assert Lookup(d, p) == Lookup(dk, p[1..]);
      if |q| == 1 {
        if !PyEq(x, next) {
          LookupPut(r.fields, k, x, p);
          LookupWellFormed(d, p);
          SameRefl(Lookup(d, p).value);
        }
      } else {
        assert Lookup(d, q) == Lookup(dk, q[1..]);
        assert next != JNull;
        var c := SetIn(next, q[1..], x).value.0;
        assert SetIn(r, q, x).value.0 == JObj(Put(r.fields, k, c));
        LookupPut(r.fields, k, c, p);
        if |p| == 1 {
          SameSetIn(next, dk, q[1..], x);
        } else {
          var i :| 0 <= i < |r.fields| && r.fields[i] == (k, next);
          SelectKeeps(next, dk, q[1..], p[1..]);
        }
      }
    }
  }

  /** `get` below a key just bound to a value other than None looks into that value. */
  lemma LookupPut(fs: seq<(string, Json)>, k: string, c: Json, p: seq<string>)
    requires p != [] && p[0] == k && c != JNull
    ensures Lookup(JObj(Put(fs, k, c)), p) == Lookup(c, p[1..])
  {
  }

  /** A leaf path of a dict below binding `j` is a path of the bindings from `i` on. */
  lemma {:induction false} FieldPathIn(d: Json, i: nat, j: nat, s: seq<string>)
    requires d.JObj? && i <= j < |d.fields| && s in LeafPaths(d.fields[j].1)
    ensures [d.fields[j].0] + s in FieldPaths(d, i)
    decreases j - i
  {
    if i < j {
      FieldPathIn(d, i + 1, j, s);
    }
  }

  /** A leaf of `d[k] = c` is a leaf of `d` or a leaf of `c` below `k`. */
  lemma PutLeaf(fs: seq<(string, Json)>, k: string, c: Json, q: seq<string>)
    requires q in LeafPaths(JObj(Put(fs, k, c)))
    ensures q in LeafPaths(JObj(fs)) || (q != [] && q[0] == k && q[1..] in LeafPaths(c))
  {
    var d := JObj(Put(fs, k, c));
    FieldPathAt(d, 0, q);
    var j :| 0 <= j < |d.fields| && q != [] && q[0] == d.fields[j].0 && q[1..] in LeafPaths(d.fields[j].1);
    assert d.fields[j] in Put(fs, k, c);
    if d.fields[j] != (k, c) {
      var i :| 0 <= i < |fs| && fs[i] == d.fields[j];
      LeafBelow(JObj(fs), i, q);
    }
  }

  /** A path through binding `j` of a dict to a leaf below it is a leaf path of the dict. */
  lemma LeafBelow(d: Json, j: nat, q: seq<string>)
    requires d.JObj? && j < |d.fields| && q != [] && q[0] == d.fields[j].0 && q[1..] in LeafPaths(d.fields[j].1)
    ensures q in LeafPaths(d)
  {
    FieldPathIn(d, 0, j, q[1..]);
    assert q == [q[0]] + q[1..];
  }

  /** Paths with the same first part, the rest of one a prefix of the rest of the other. */
  lemma PrefixCons(p: seq<string>, q: seq<string>)
    requires p != [] && q != [] && p[0] == q[0] && p[1..] <= q[1..]
    ensures p <= q
  {
    assert p == [p[0]] + p[1..] && q == [q[0]] + q[1..];
  }

  /** Every leaf after `_set` at `p` was a leaf before, or lies on or under `p`. */
  lemma {:induction false} SetInLeaf(r: Json, p: seq<string>, x: Json, q: seq<string>)
    requires |p| >= 1 && SetIn(r, p, x).Ok? && q in LeafPaths(SetIn(r, p, x).value.0)
    ensures q in LeafPaths(r) || p <= q
    decreases |p|
  {
    var k := p[0];
    var next := Get(r.fields, k);
    if |p| == 1 {
      if !PyEq(x, next) {
        PutLeaf(r.fields, k, x, q);
        if q != [] && q[0] == k {
          PrefixCons(p, q);
        }
      }
    } else {
      var child := if next == JNull then JObj([]) else next;
      var c := SetIn(child, p[1..], x).value.0;
      assert SetIn(r, p, x).value.0 == JObj(Put(r.fields, k, c));
      PutLeaf(r.fields, k, c, q);
      if q != [] && q[0] == k && q[1..] in LeafPaths(c) {
        SetInLeaf(child, p[1..], x, q[1..]);
        if p[1..] <= q[1..] {
          PrefixCons(p, q);
        } else {
          var j :| 0 <= j < |r.fields| && r.fields[j] == (k, next);
          LeafBelow(r, j, q);
        }
      }
    }
  }

  /** Whether `select` puts `item` in its result: `get` finds it set. */
  predicate Picked(data: Json, item: string)
  {
    Lookup(data, Path(item)).Ok? && Lookup(data, Path(item)).value != JNull
  }

  /** `item` reads back from `r` with the value it has in `data`, up to key order. */
  predicate Holds(data: Json, item: string, r: Json)
  {
    Lookup(r, Path(item)).Ok? && Lookup(data, Path(item)).Ok? &&
    Same(Lookup(r, Path(item)).value, Lookup(data, Path(item)).value)
  }

  /**
   * What `select` has gathered in `r` after the items `done`: a dict within
   * `data`, from which each picked item of `done` reads back, and whose
   * every leaf lies on or under a picked item.
   */
  ghost predicate Selected(data: Json, done: seq<string>, r: Json)
  {
    r.JObj? && Within(r, data) &&
    (forall item :: item in done && Picked(data, item) ==> Holds(data, item, r)) &&
    (forall q :: q in LeafPaths(r) ==> exists item :: item in done && Picked(data, item) && Path(item) <= q)
  }

  /** Selecting a picked item makes it read back. */
  lemma SelectNew(data: Json, r: Json, item: string)
    requires WellFormed(data) && r.JObj? && Within(r, data) && Picked(data, item)
    ensures var v := Lookup(data, Path(item)).value;
      SetIn(r, Path(item), v).Ok? && Holds(data, item, SetIn(r, Path(item), v).value.0)
  {
    var p := Path(item);
    var v := Lookup(data, p).value;
    SetWithin(r, data, p, v);
    var r' := SetIn(r, p, v).value.0;
    SetInThenLookup(r, p, v);
    LookupWellFormed(data, p);
    if SetIn(r, p, v).value.1 {
      SameRefl(v);
    } else {
      var w := Lookup(r', p).value;
      assert w != JNull;
      WithinLookup(r', data, p);
      PyEqWithinSame(v, w);
    }
  }

  /** Selecting a picked item keeps what was gathered. */
  lemma SelectStep(data: Json, done: seq<string>, r: Json, item: string)
    requires WellFormed(data) && Selected(data, done, r) && Picked(data, item)
    ensures var v := Lookup(data, Path(item)).value;
      SetIn(r, Path(item), v).Ok? && Selected(data, done + [item], SetIn(r, Path(item), v).value.0)
  {
    var p := Path(item);
    var v := Lookup(data, p).value;
    SetWithin(r, data, p, v);
    var r' := SetIn(r, p, v).value.0;
    forall it | it in done + [item] && Picked(data, it) ensures Holds(data, it, r') {
      if it == item {
        SelectNew(data, r, item);
      } else {
        SelectKeeps(r, data, p, Path(it));
      }
    }
    forall q | q in LeafPaths(r') ensures exists it :: it in done + [item] && Picked(data, it) && Path(it) <= q {
      SetInLeaf(r, p, v, q);
      if q in LeafPaths(r) {
        var it :| it in done && Picked(data, it) && Path(it) <= q;
        assert it in done + [item];
      } else {
        assert item in done + [item];
      }
    }
  }

  /** Passing over an item that is not set keeps what was gathered. */
  lemma SelectSkip(data: Json, done: seq<string>, r: Json, item: string)
    requires Selected(data, done, r) && !Picked(data, item)
    ensures Selected(data, done + [item], r)
  {
    forall q | q in LeafPaths(r) ensures exists it :: it in done + [item] && Picked(data, it) && Path(it) <= q {
      var it :| it in done && Picked(data, it) && Path(it) <= q;
      assert it in done + [item];
    }
  }

  /** The fold of `select` from what was gathered after `done` fails exactly when `get` fails for one of the remaining `items`. */
  lemma {:induction false} SelectFails(data: Json, done: seq<string>, items: seq<string>, r: Json)
    requires WellFormed(data) && Selected(data, done, r)
    ensures SelectFrom(data, items, r).Err? <==> exists item :: item in items && Lookup(data, Path(item)).Err?
    decreases |items|
  {
    if items != [] {
      var p := Path(items[0]);
      assert items == [items[0]] + items[1..];
      if Picked(data, items[0]) {
        SelectStep(data, done, r, items[0]);
        SelectFails(data, done + [items[0]], items[1..], SetIn(r, p, Lookup(data, p).value).value.0);
      } else if Lookup(data, p).Ok? {
        SelectSkip(data, done, r, items[0]);
        SelectFails(data, done + [items[0]], items[1..], r);
      }
    }
  }

  /** The fold of `select` from what was gathered after `done` gathers the remaining `items` too. */
  lemma {:induction false} SelectGathers(data: Json, done: seq<string>, items: seq<string>, r: Json)
    requires WellFormed(data) && Selected(data, done, r)
    ensures SelectFrom(data, items, r).Ok? ==> Selected(data, done + items, SelectFrom(data, items, r).value)
    decreases |items|
  {
    if items == [] {
      assert done + items == done;
    } else {
      var p := Path(items[0]);
      assert done + [items[0]] + items[1..] == done + items;
      if Picked(data, items[0]) {
        SelectStep(data, done, r, items[0]);
        SelectGathers(data, done + [items[0]], items[1..], SetIn(r, p, Lookup(data, p).value).value.0);
      } else if Lookup(data, p).Ok? {
        SelectSkip(data, done, r, items[0]);
        SelectGathers(data, done + [items[0]], items[1..], r);
      }
    }
  }

  /**
   * What `select(*items)` promises, for the result `r` of selecting from
   * `data`: it raises ValueError exactly when `get` raises for one of the
   * items; otherwise it is a dict holding nothing `data` does not hold at
   * the same place, every item that is set reads back from it with its
   * value (equal by Python `==`), and every leaf of it lies on or under
   * such an item.
   */
  ghost predicate Selection(data: Json, items: seq<string>, r: Result<Json>)
  {
    (r.Err? <==> exists item :: item in items && Lookup(data, Path(item)).Err?) &&
    (r.Ok? ==>
      r.value.JObj? && Within(r.value, data) &&
      (forall item :: item in items && Picked(data, item) ==>
        Lookup(r.value, Path(item)).Ok? && PyEq(Lookup(data, Path(item)).value, Lookup(r.value, Path(item)).value)) &&
      (forall q :: q in LeafPaths(r.value) ==> exists item :: item in items && Picked(data, item) && Path(item) <= q))
  }

  /** `select(*items)` on the store's data keeps that promise. */
  lemma SelectSpec(data: Json, items: seq<string>)
    requires ValidData(data)
    ensures Selection(data, items, SelectFrom(data, items, JObj([])))
  {
    assert LeafPaths(JObj([])) == {};
    SelectFails(data, [], items, JObj([]));
    SelectGathers(data, [], items, JObj([]));
    assert [] + items == items;
    var r := SelectFrom(data, items, JObj([]));
    if r.Ok? {
      forall item | item in items && Picked(data, item)
        ensures PyEq(Lookup(data, Path(item)).value, Lookup(r.value, Path(item)).value)
      {
        LookupWellFormed(data, Path(item));
        SamePyEq(Lookup(r.value, Path(item)).value, Lookup(data, Path(item)).value);
      }
    }
  }

  /**
   * One turn of `clear` on a tree with simple keys: the item about to be
   * set to None is still where it was, and setting it changes no item
   * still to be cleared.
   */
  lemma ClearKeeps(data0: Json, before: Json, item: string, rest: set<string>)
    requires ValidData(data0) && SimpleKeys(data0)
    requires item in ExtractItems(data0, "") && rest <= ExtractItems(data0, "") && item !in rest
    requires Lookup(before, Path(item)) == Lookup(data0, Path(item))
    requires forall x :: x in rest ==> Lookup(before, Path(x)) == Lookup(data0, Path(x))
    ensures Lookup(data0, Path(item)).Ok? && SetIn(before, Path(item), JNull).Ok?
    ensures forall x :: x in rest ==> Lookup(SetIn(before, Path(item), JNull).value.0, Path(x)) == Lookup(data0, Path(x))
  {
    ItemsAreLeaves(data0);
    LeafPathLookup(data0, Path(item));
    SetInFailsLikeLookup(before, Path(item), JNull);
    forall x | x in rest
      ensures Lookup(SetIn(before, Path(item), JNull).value.0, Path(x)) == Lookup(data0, Path(x))
    {
      JoinSplit(item, ".");
      JoinSplit(x, ".");
      LeafPathsDiverge(data0, Path(item), Path(x));
      SetInKeepsOthers(before, Path(item), JNull, Path(x));
    }
  }

  /** What was sent so far: `None` once for each cleared item, and nothing else. */
  ghost predicate SentNulls(all: set<string>, remaining: set<string>, sent: seq<(string, Json)>)
  {
    (forall j :: 0 <= j < |sent| ==> sent[j].0 in all - remaining && sent[j].1 == JNull) &&
    (forall j, k :: 0 <= j < k < |sent| ==> sent[j].0 != sent[k].0)
  }

  /** Clearing one more item, and sending `None` for it when it changed, keeps what was sent one `None` per cleared item. */
  lemma SentNullsStep(all: set<string>, remaining: set<string>, sent: seq<(string, Json)>, item: string, changed: bool)
    requires remaining <= all && item in remaining && SentNulls(all, remaining, sent)
    ensures SentNulls(all, remaining - {item}, if changed then sent + [(item, JNull)] else sent)
  {
    var sent' := if changed then sent + [(item, JNull)] else sent;
    var rest := remaining - {item};
    forall j | 0 <= j < |sent'| ensures sent'[j].0 in all - rest && sent'[j].1 == JNull {
      if j < |sent| {
        assert sent'[j] == sent[j];
      }
    }
    forall j, k | 0 <= j < k < |sent'| ensures sent'[j].0 != sent'[k].0 {
      if k == |sent| {
        assert sent[j].0 in all - remaining;
      }
    }
  }

  /**
   * Part way through `clear` of `data0`, whose items are `all`, the tree
   * being `data`: the items not yet cleared are `remaining`, and `sent` holds the
   * notifications so far, once per cleared item at most, always with None.
   * With simple keys, the remaining items are untouched and exactly the
   * cleared items that were not None have been sent.
   */
  ghost predicate ClearState(all: set<string>, data0: Json, data: Json, remaining: set<string>, sent: seq<(string, Json)>)
  {
    remaining <= all && SentNulls(all, remaining, sent) &&
    (SimpleKeys(data0) ==> forall x :: x in remaining ==> Lookup(data, Path(x)) == Lookup(data0, Path(x))) &&
    (SimpleKeys(data0) ==> forall x :: x in all - remaining ==>
      ((x, JNull) in sent <==> Lookup(data0, Path(x)) != Ok(JNull)))
  }

  /**
   * A successful `set(item, None)`, which turned `before` into `after` and
   * notified when `changed`, moves `item` from the remaining items to the
   * cleared ones.
   */
  lemma ClearStep(all: set<string>, data0: Json, before: Json, after: Json, item: string, remaining: set<string>, sent: seq<(string, Json)>, changed: bool)
    requires ClearState(all, data0, before, remaining, sent) && item in remaining
    requires SimpleKeys(data0) ==> forall x :: x in remaining - {item} ==> Lookup(after, Path(x)) == Lookup(data0, Path(x))
    requires SimpleKeys(data0) ==> (changed <==> Lookup(data0, Path(item)) != Ok(JNull))
    ensures ClearState(all, data0, after, remaining - {item}, if changed then sent + [(item, JNull)] else sent)
  {
    var sent' := if changed then sent + [(item, JNull)] else sent;
    var rest := remaining - {item};
    SentNullsStep(all, remaining, sent, item, changed);
    if SimpleKeys(data0) {
      forall x | x in all - rest ensures (x, JNull) in sent' <==> Lookup(data0, Path(x)) != Ok(JNull) {
        if x == item {
          assert (x, JNull) !in sent by {
            forall j | 0 <= j < |sent| ensures sent[j] != (x, JNull) {
            }
          }
        } else {
          assert (x, JNull) in sent' <==> (x, JNull) in sent;
        }
      }
    }
  }

  class Store {
    /** The callable told of every change. */
    const notifier: Notifier.Notifier
    var data: Json

    ghost predicate Valid()
      reads this
    {
      ValidData(data)
    }

    /** `Store(notifier)`: empty. */
    constructor (notifier: Notifier.Notifier)
      ensures Valid() && this.notifier == notifier && data == JObj([])
    {
      this.notifier := notifier;
      data := JObj([]);
    }

    /**
     * The configuration store's `Store(notifier, **kwargs)`: each keyword
     * value is written with `_set`, so nothing is notified; a ValueError
     * from `_set` fails the construction.
     */
    static method WithValues(notifier: Notifier.Notifier, kwargs: seq<(string, Json)>) returns (r: Result<Store>)
      requires forall i :: 0 <= i < |kwargs| ==> WellFormed(kwargs[i].1)
      ensures r.Ok? ==> fresh(r.value) && r.value.Valid() && r.value.notifier == notifier
      ensures r.Ok? <==> SetEach(JObj([]), kwargs).Ok?
      ensures r.Ok? ==> r.value.data == SetEach(JObj([]), kwargs).value
      ensures notifier.log == old(notifier.log) && notifier.calls == old(notifier.calls)
    {
      var store := new Store(notifier);
      var i := 0;
      while i < |kwargs|
        invariant 0 <= i <= |kwargs|
        invariant fresh(store) && store.Valid() && store.notifier == notifier
        invariant SetEach(JObj([]), kwargs) == SetEach(store.data, kwargs[i..])
      {
        var (key, value) := kwargs[i];
        var changed := store.SetQuiet(key, value);
        if changed.Err? {
          return Err(changed.error);
        }
        i := i + 1;
      }
      r := Ok(store);
    }

    /** The item names of every value that is not a dict. */
    function Items(): set<string>
      reads this
    {
      ExtractItems(data, "")
    }

    /** `get(item)`: walks the item's parts from the top of the tree. */
    method Get(item: string) returns (r: Result<Json>)
      ensures r == Lookup(data, Path(item))
    {
      var parts := Path(item);
      var value := data;
      var i := 0;
      while i < |parts|
        invariant 0 <= i <= |parts|
        invariant Lookup(data, parts) == Lookup(value, parts[i..])
      {
        if !value.JObj? {
          return Err("ValueError");
        }
        assert parts[i..][1..] == parts[i + 1..];
        value := JsonValues.Get(value.fields, parts[i]);
        if value == JNull {
          return Ok(JNull);
        }
        i := i + 1;
      }
      r := Ok(value);
    }

    /** `_set(self._data, item, value)`: writes without notifying. */
    method SetQuiet(item: string, value: Json) returns (r: Result<bool>)
      requires Valid() && WellFormed(value)
      modifies this`data
      ensures Valid()
      ensures r.Ok? <==> SetIn(old(data), Path(item), value).Ok?
      ensures r.Ok? ==> data == SetIn(old(data), Path(item), value).value.0 && r.value == SetIn(old(data), Path(item), value).value.1
      ensures r.Err? ==> data == old(data) && r.error == "ValueError"
    {
      var s := SetIn(data, Path(item), value);
      if s.Err? {
        return Err(s.error);
      }
      SetInWellFormed(data, Path(item), value);
      data := s.value.0;
      r := Ok(s.value.1);
    }

    /**
     * `set(item, value)`: `_set`, then a call of the notifier with
     * `(item, value)` only when the value changed. Afterwards `get(item)`
     * gives the value (equal by Python `==`).
     */
    method Set(item: string, value: Json) returns (r: Result<()>)
      requires Valid() && WellFormed(value)
      modifies this`data, notifier`log, notifier`calls
      ensures Valid()
      ensures r.Ok? <==> SetIn(old(data), Path(item), value).Ok?
      ensures r == if Lookup(old(data), Path(item)).Ok? then Ok(()) else Err("ValueError")
      ensures r.Ok? ==> data == SetIn(old(data), Path(item), value).value.0
      ensures r.Err? ==> data == old(data)
      ensures r.Ok? ==> Lookup(data, Path(item)).Ok? && PyEq(value, Lookup(data, Path(item)).value)
      ensures var changed := r.Ok? && !PyEq(value, Lookup(old(data), Path(item)).value);
        notifier.calls == old(notifier.calls) + (if changed then [(item, value)] else []) &&
        notifier.log == old(notifier.log) + (if changed then Notifier.Fanout(notifier.callbacks, item, value) else [])
    {
      SetInFailsLikeLookup(data, Path(item), value);
      ghost var before := data;
      var changed := SetQuiet(item, value);
      if changed.Err? {
        return Err(changed.error);
      }
      SetInChanged(before, Path(item), value);
      SetInThenLookup(before, Path(item), value);
      if changed.value {
        PyEqRefl(value);
        notifier.Call(item, value);
      }
      r := Ok(());
    }

    /**
     * `select(*items)`: a new tree holding the items that are set, each
     * written with `_set`; a ValueError from `get` or `_set` fails it.
     */
    method Select(items: seq<string>) returns (r: Result<Json>)
      requires Valid()
      ensures r == SelectFrom(data, items, JObj([]))
      ensures Selection(data, items, r)
    {
      SelectSpec(data, items);
      var result := JObj([]);
      var i := 0;
      while i < |items|
        invariant 0 <= i <= |items|
        invariant SelectFrom(data, items, JObj([])) == SelectFrom(data, items[i..], result)
      {
        assert items[i..][1..] == items[i + 1..];
        var value := Get(items[i]);
        if value.Err? {
          return Err(value.error);
        }
        if value.value != JNull {
          var s := SetIn(result, Path(items[i]), value.value);
          if s.Err? {
            return Err(s.error);
          }
          result := s.value.0;
        }
        i := i + 1;
      }
      r := Ok(result);
    }

    /**
     * `clear()`: `set(item, None)` for every item, in the set's order, then
     * an empty tree. Each item is notified at most once, and with None.
     * When no key is empty or holds a dot, every item is found where its
     * name says, so nothing fails and exactly the items that were not None
     * are notified.
     */
    method Clear() returns (r: Result<()>)
      requires Valid()
      modifies this`data, notifier`log, notifier`calls
      ensures Valid()
      ensures r.Ok? ==> data == JObj([])
      ensures r.Err? ==> r.error == "ValueError"
      ensures |notifier.calls| >= |old(notifier.calls)| && notifier.calls[..|old(notifier.calls)|] == old(notifier.calls)
      ensures var sent := notifier.calls[|old(notifier.calls)|..];
        (forall j :: 0 <= j < |sent| ==> sent[j].0 in old(Items()) && sent[j].1 == JNull) &&
        (forall j, k :: 0 <= j < k < |sent| ==> sent[j].0 != sent[k].0)
      ensures SimpleKeys(old(data)) ==> r.Ok?
      ensures SimpleKeys(old(data)) ==> forall item :: item in old(Items()) ==>
        ((item, JNull) in notifier.calls[|old(notifier.calls)|..] <==> Lookup(old(data), Path(item)) != Ok(JNull))
      ensures notifier.log == old(notifier.log) + Notifier.FanoutEach(notifier.callbacks, notifier.calls[|old(notifier.calls)|..])
    {
      var remaining := Items();
      ghost var sent: seq<(string, Json)> := [];
      while remaining != {}
        invariant Valid() && Clearing(old(data), old(notifier.calls), old(notifier.log), remaining, sent)
        decreases |remaining|
      {
        var item :| item in remaining;
        r, sent := ClearItem(item, old(data), old(notifier.calls), old(notifier.log), remaining, sent);
        if r.Err? {
          assert notifier.calls[|old(notifier.calls)|..] == sent;
          return;
        }
        remaining := remaining - {item};
      }
      assert notifier.calls[|old(notifier.calls)|..] == sent;
      data := JObj([]);
      r := Ok(());
    }

    /** Part way through `clear` of `data0`, with `sent` notified since `calls0` and delivered since `log0`; see `ClearState`. */
    ghost predicate Clearing(data0: Json, calls0: seq<(string, Json)>, log0: seq<Notifier.Delivery>, remaining: set<string>, sent: seq<(string, Json)>)
      reads this, notifier
    {
      notifier.calls == calls0 + sent && notifier.log == log0 + Notifier.FanoutEach(notifier.callbacks, sent) &&
      ClearState(ExtractItems(data0, ""), data0, data, remaining, sent)
    }

    /** One turn of `clear`: `set(item, None)`. */
    method ClearItem(item: string, ghost data0: Json, ghost calls0: seq<(string, Json)>, ghost log0: seq<Notifier.Delivery>,
                     ghost remaining: set<string>, ghost sent: seq<(string, Json)>)
      returns (r: Result<()>, ghost sent': seq<(string, Json)>)
      requires Valid() && ValidData(data0) && Clearing(data0, calls0, log0, remaining, sent) && item in remaining
      modifies this`data, notifier`log, notifier`calls
      ensures Valid()
      ensures r.Err? ==> r.error == "ValueError" && !SimpleKeys(data0) && sent' == sent
      ensures r.Err? ==> notifier.calls == calls0 + sent && notifier.log == log0 + Notifier.FanoutEach(notifier.callbacks, sent)
      ensures r.Ok? ==> Clearing(data0, calls0, log0, remaining - {item}, sent')
    {
      if SimpleKeys(data0) {
        ClearKeeps(data0, data, item, remaining - {item});
      }
      ghost var before := data;
      r := Set(item, JNull);
      sent' := sent;
      if r.Ok? {
        ghost var changed := !PyEq(JNull, Lookup(before, Path(item)).value);
        ClearStep(ExtractItems(data0, ""), data0, before, data, item, remaining, sent, changed);
        if changed {
          sent' := sent + [(item, JNull)];
          Seqs.ConcatAssoc(calls0, sent, [(item, JNull)]);
          Notifier.FanoutEachOne(notifier.callbacks, item, JNull);
          Notifier.DeliveredAppend(notifier.callbacks, log0, sent, [(item, JNull)]);
        }
      }
    }

    /** The inner `update(value, target)` of `update`, on `value` and below. */
    method UpdateAt(value: Json, target: string) returns (r: Result<()>)
      requires Valid() && WellFormed(value)
      modifies this`data, notifier`log, notifier`calls
      ensures Valid()
      ensures var run := UpdateRun(old(data), value, target);
        data == run.data && r == run.outcome && notifier.calls == old(notifier.calls) + run.notified &&
        notifier.log == old(notifier.log) + Notifier.FanoutEach(notifier.callbacks, run.notified)
      decreases value, 2
    {
      if value.JObj? {
        r := UpdateFields(value, target);
      } else if target != "" {
        ghost var before := data;
        r := Set(target, value);
        SetInFailsLikeLookup(before, Path(target), value);
        if r.Ok? {
          SetInChanged(before, Path(target), value);
        }
        Notifier.FanoutEachOne(notifier.callbacks, target, value);
      } else {
        r := Err("ValueError");
      }
    }

    /** The `for k, v in value.items()` loop of the inner `update`. */
    method UpdateFields(value: Json, target: string) returns (r: Result<()>)
      requires Valid() && WellFormed(value) && value.JObj?
      modifies this`data, notifier`log, notifier`calls
      ensures Valid()
      ensures var run := FieldsRun(old(data), value, target, |value.fields|);
        data == run.data && r == run.outcome && notifier.calls == old(notifier.calls) + run.notified &&
        notifier.log == old(notifier.log) + Notifier.FanoutEach(notifier.callbacks, run.notified)
      decreases value, 1
    {
      ghost var data0, calls0, log0 := data, notifier.calls, notifier.log;
      r := Ok(());
      var i := 0;
      while i < |value.fields| && r.Ok?
        invariant 0 <= i <= |value.fields|
        invariant Valid() && Reached(data0, calls0, log0, FieldsRun(data0, value, target, i))
        invariant r == FieldsRun(data0, value, target, i).outcome
      {
        r := UpdateBinding(value, target, i, data0, calls0, log0);
        i := i + 1;
      }
      if r.Err? {
        FieldsStopped(data0, value, target, i, |value.fields|);
      }
    }

    /** The store, the notifier's calls and its log are where `run`, from `data0`, `calls0` and `log0`, leaves them. */
    ghost predicate Reached(data0: Json, calls0: seq<(string, Json)>, log0: seq<Notifier.Delivery>, run: Run)
      reads this, notifier
    {
      data == run.data && notifier.calls == calls0 + run.notified &&
      notifier.log == log0 + Notifier.FanoutEach(notifier.callbacks, run.notified)
    }

    /** One turn of that loop: the inner `update` of the `i`th binding. */
    method UpdateBinding(value: Json, target: string, i: nat, ghost data0: Json, ghost calls0: seq<(string, Json)>, ghost log0: seq<Notifier.Delivery>)
      returns (r: Result<()>)
      requires Valid() && WellFormed(value) && value.JObj? && i < |value.fields|
      requires Reached(data0, calls0, log0, FieldsRun(data0, value, target, i))
      requires FieldsRun(data0, value, target, i).outcome == Ok(())
      modifies this`data, notifier`log, notifier`calls
      ensures Valid() && Reached(data0, calls0, log0, FieldsRun(data0, value, target, i + 1))
      ensures r == FieldsRun(data0, value, target, i + 1).outcome
      decreases value, 0
    {
      var binding := value.fields[i];
      assert binding in value.fields && binding.1 < value;
      ghost var done := FieldsRun(data0, value, target, i);
      ghost var first := UpdateRun(done.data, binding.1, Dotted(target, binding.0));
      assert FieldsRun(data0, value, target, i + 1) == Then(done, first);
      r := UpdateAt(binding.1, Dotted(target, binding.0));
      Seqs.ConcatAssoc(calls0, done.notified, first.notified);
      Notifier.DeliveredAppend(notifier.callbacks, log0, done.notified, first.notified);
    }

    /**
     * `update(value)`: every leaf of `value` is `set` under its dotted
     * item, in the dict's order; the notifier is called once per leaf that
     * changed, and the first ValueError stops it.
     */
    method Update(value: Json) returns (r: Result<()>)
      requires Valid() && WellFormed(value)
      modifies this`data, notifier`log, notifier`calls
      ensures Valid()
      ensures var run := UpdateRun(old(data), value, "");
        data == run.data && r == run.outcome && notifier.calls == old(notifier.calls) + run.notified &&
        notifier.log == old(notifier.log) + Notifier.FanoutEach(notifier.callbacks, run.notified)
      ensures value.JObj? && SimpleKeys(value) && (forall p :: p in LeafPaths(value) ==> Lookup(old(data), p).Ok?) ==>
        r == Ok(()) && notifier.calls == old(notifier.calls) + Changed(old(data), LeafItems(value)) &&
        forall p :: p in LeafPaths(value) ==>
          Lookup(value, p).Ok? && Lookup(data, p).Ok? && PyEq(Lookup(value, p).value, Lookup(data, p).value)
    {
      if value.JObj? && SimpleKeys(value) && forall p :: p in LeafPaths(value) ==> Lookup(data, p).Ok? {
        UpdateSpec(data, value);
      }
      r := UpdateAt(value, "");
    }
  }

  /** `_set` of each (item, value) in turn, stopping at the first ValueError. */
  function SetEach(data: Json, kwargs: seq<(string, Json)>): Result<Json>
    decreases |kwargs|
  {
    if kwargs == [] then Ok(data)
    else match SetIn(data, Path(kwargs[0].0), kwargs[0].1)
      case Err(e) => Err(e)
      case Ok((d, _)) => SetEach(d, kwargs[1..])
  }
}
