/**
 * JSON values (RFC 8259) as Python holds them after `json.loads`: None,
 * booleans, numbers, strings, lists and dicts. Numbers are integers only
 * here; `json.loads` also gives floats, which this model leaves out. A dict
 * is a list of (key, value) bindings in insertion order, which is the
 * order Python iterates it in.
 */
module Json {

  datatype Json =
    | JNull
    | JBool(b: bool)
    | JInt(i: int)
    | JStr(s: string)
    | JArr(items: seq<Json>)
    | JObj(fields: seq<(string, Json)>)

  /** The keys of a dict, in order. */
  function Keys(fields: seq<(string, Json)>): (r: seq<string>)
    ensures |r| == |fields| && forall i :: 0 <= i < |fields| ==> r[i] == fields[i].0
  {
    if fields == [] then [] else [fields[0].0] + Keys(fields[1..])
  }

  /** The keys of a dict, as a set. */
  function KeySet(fields: seq<(string, Json)>): (r: set<string>)
    ensures forall k :: k in r <==> k in Keys(fields)
  {
    set k | k in Keys(fields)
  }

  /** No key occurs twice, as in a Python dict. */
  predicate UniqueKeys(fields: seq<(string, Json)>)
  {
    forall i, j :: 0 <= i < j < |fields| ==> fields[i].0 != fields[j].0
  }

  /** Every dict in `j`, at any depth, has unique keys: `j` is a Python value. */
  predicate WellFormed(j: Json)
  {
    match j
    case JArr(items) => forall i :: 0 <= i < |items| ==> WellFormed(items[i])
    case JObj(fields) => UniqueKeys(fields) && forall i :: 0 <= i < |fields| ==> WellFormed(fields[i].1)
    case _ => true
  }

  /** `dict.get(k, None)`. */
  function Get(fields: seq<(string, Json)>, k: string): (r: Json)
    ensures r != JNull ==> exists i :: 0 <= i < |fields| && fields[i] == (k, r)
    ensures (forall i :: 0 <= i < |fields| ==> fields[i].0 != k) ==> r == JNull
  {
    if fields == [] then JNull
    else if fields[0].0 == k then fields[0].1
    else Get(fields[1..], k)
  }

  /** With unique keys, the binding at index `i` is what `get` finds for its key. */
  lemma {:induction false} GetAt(fields: seq<(string, Json)>, i: nat)
    requires UniqueKeys(fields) && i < |fields|
    ensures Get(fields, fields[i].0) == fields[i].1
  {
    if i > 0 {
      GetAt(fields[1..], i - 1);
    }
  }

  /** `d[k] = v`: an existing key keeps its place, a new key is appended. */
  function Put(fields: seq<(string, Json)>, k: string, v: Json): (r: seq<(string, Json)>)
    ensures Get(r, k) == v
    ensures forall k' :: k' != k ==> Get(r, k') == Get(fields, k')
    ensures forall b :: b in r ==> b == (k, v) || b in fields
  {
    if fields == [] then [(k, v)]
    else if fields[0].0 == k then [(k, v)] + fields[1..]
    else [fields[0]] + Put(fields[1..], k, v)
  }

  /** `d[k] = v` adds `k` to the keys. */
  lemma {:induction false} PutKeys(fields: seq<(string, Json)>, k: string, v: Json)
    ensures KeySet(Put(fields, k, v)) == KeySet(fields) + {k}
  {
    if fields != [] && fields[0].0 != k {
      PutKeys(fields[1..], k, v);
      assert Keys(Put(fields, k, v)) == [fields[0].0] + Keys(Put(fields[1..], k, v));
      assert Keys(fields) == [fields[0].0] + Keys(fields[1..]);
    } else if fields != [] {
      assert Keys(Put(fields, k, v)) == [k] + Keys(fields[1..]);
      assert Keys(fields) == [k] + Keys(fields[1..]);
    }
  }

  /** `d[k] = v` keeps the keys unique. */
  lemma {:induction false} PutUnique(fields: seq<(string, Json)>, k: string, v: Json)
    requires UniqueKeys(fields)
    ensures UniqueKeys(Put(fields, k, v))
  {
    if fields == [] {
    } else if fields[0].0 == k {
      var r := Put(fields, k, v);
      assert forall j :: 0 < j < |r| ==> r[j] == fields[j];
    } else {
      var h, rest := fields[0], fields[1..];
      UniqueTail(fields);
      PutUnique(rest, k, v);
      PutKeys(rest, k, v);
      var t := Put(rest, k, v);
      assert h.0 !in KeySet(t);
      UniqueCons(h, t);
      assert Put(fields, k, v) == [h] + t;
    }
  }

  /** The tail of a dict with unique keys has unique keys, none of them the first key. */
  lemma UniqueTail(fields: seq<(string, Json)>)
    requires fields != [] && UniqueKeys(fields)
    ensures UniqueKeys(fields[1..]) && fields[0].0 !in KeySet(fields[1..])
  {
    var rest := fields[1..];
    forall i, j | 0 <= i < j < |rest| ensures rest[i].0 != rest[j].0 {
      assert rest[i] == fields[i + 1] && rest[j] == fields[j + 1];
    }
    forall m | 0 <= m < |rest| ensures Keys(rest)[m] != fields[0].0 {
      assert rest[m] == fields[m + 1];
    }
  }

  /** A binding whose key is new, put in front of a dict with unique keys, keeps them unique. */
  lemma UniqueCons(h: (string, Json), t: seq<(string, Json)>)
    requires UniqueKeys(t) && h.0 !in KeySet(t)
    ensures UniqueKeys([h] + t)
  {
    var r := [h] + t;
    forall i, j | 0 <= i < j < |r| ensures r[i].0 != r[j].0 {
      assert r[j] == t[j - 1];
      assert Keys(t)[j - 1] == r[j].0;
      if i > 0 {
        assert r[i] == t[i - 1];
      }
    }
  }

  /** `d[k] = v` with a Python value `v` leaves `d` a Python value. */
  lemma PutWellFormed(fields: seq<(string, Json)>, k: string, v: Json)
    requires WellFormed(JObj(fields)) && WellFormed(v)
    ensures WellFormed(JObj(Put(fields, k, v)))
  {
    PutUnique(fields, k, v);
    var r := Put(fields, k, v);
    forall i | 0 <= i < |r| ensures WellFormed(r[i].1) {
      assert r[i] in r;
      if r[i] != (k, v) {
        var j :| 0 <= j < |fields| && fields[j] == r[i];
      }
    }
  }

  /** The integer a number or boolean compares as: True == 1 and False == 0. */
  function NumberValue(j: Json): int
    requires j.JBool? || j.JInt?
  {
    if j.JInt? then j.i else if j.b then 1 else 0
  }

  /**
   * Python's `==` on such values: booleans equal the integers 1 and 0,
   * lists compare element by element, and dicts compare by key set and
   * per-key value, whatever their order.
   */
  predicate PyEq(a: Json, b: Json)
    decreases a, 1
  {
    match a
    case JNull => b == JNull
    case JBool(_) => (b.JBool? || b.JInt?) && NumberValue(a) == NumberValue(b)
    case JInt(_) => (b.JBool? || b.JInt?) && NumberValue(a) == NumberValue(b)
    case JStr(s) => b == JStr(s)
    case JArr(xs) => b.JArr? && |xs| == |b.items| && ItemsEq(a, b.items, 0)
    case JObj(fs) => b.JObj? && KeySet(fs) == KeySet(b.fields) && FieldsEq(a, b.fields, 0)
  }

  /** The items of list `a` from `i` on equal those of `ys`. */
  predicate ItemsEq(a: Json, ys: seq<Json>, i: nat)
    requires a.JArr? && |a.items| == |ys| && i <= |ys|
    decreases a, 0, |ys| - i
  {
    i == |ys| || (PyEq(a.items[i], ys[i]) && ItemsEq(a, ys, i + 1))
  }

  /** Each binding of dict `a` from `i` on equals the binding of its key in `fs`. */
  predicate FieldsEq(a: Json, fs: seq<(string, Json)>, i: nat)
    requires a.JObj? && i <= |a.fields|
    decreases a, 0, |a.fields| - i
  {
    i == |a.fields| || (PyEq(a.fields[i].1, Get(fs, a.fields[i].0)) && FieldsEq(a, fs, i + 1))
  }

  /** Python's `==` is reflexive on well-formed values. */
  lemma {:induction false} PyEqRefl(a: Json)
    requires WellFormed(a)
    ensures PyEq(a, a)
    decreases a, 1
  {
    match a
    case JArr(xs) => ItemsRefl(a, 0);
    case JObj(fs) => FieldsRefl(a, 0);
    case _ =>
  }

  lemma {:induction false} ItemsRefl(a: Json, i: nat)
    requires a.JArr? && WellFormed(a) && i <= |a.items|
    ensures ItemsEq(a, a.items, i)
    decreases a, 0, |a.items| - i
  {
    if i < |a.items| {
      PyEqRefl(a.items[i]);
      ItemsRefl(a, i + 1);
    }
  }

  lemma {:induction false} FieldsRefl(a: Json, i: nat)
    requires a.JObj? && WellFormed(a) && i <= |a.fields|
    ensures FieldsEq(a, a.fields, i)
    decreases a, 0, |a.fields| - i
  {
    if i < |a.fields| {
      GetAt(a.fields, i);
      PyEqRefl(a.fields[i].1);
      FieldsRefl(a, i + 1);
    }
  }
}
