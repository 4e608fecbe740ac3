/**
 * The callback list of notifier.py: an ordered, duplicate-free list of
 * callables that are all called, in registration order, whenever the
 * notifier is called. Here the notifier is always called as the store
 * calls it, with an item name and its new value.
 */
module Notifier {
  import opened Wrappers
  import opened Json
  import opened Seqs

  /**
   * A registered object. `Plain` is any callable, identified by `id`;
   * `OnNotify` is the closure `Value.notify` registers, which forwards the
   * value to callback `target` when the item is `name` (`closure` tells
   * such closures apart, as Python's object identity does); `NotCallable`
   * is any object that cannot be called.
   */
  datatype Callback =
    | Plain(id: nat)
    | OnNotify(name: string, target: nat, closure: nat)
    | NotCallable(id: nat)

  /** One call made by a callback: `id` called with these arguments. */
  datatype Delivery = Called(id: nat, item: string, value: Json) | Forwarded(target: nat, value: Json)

  /** What calling one registered object with `(item, value)` delivers. */
  function Deliver(c: Callback, item: string, value: Json): seq<Delivery>
  {
    match c
    case Plain(id) => [Called(id, item, value)]
    case OnNotify(name, target, _) => if item == name then [Forwarded(target, value)] else []
    case NotCallable(_) => []
  }

  /** What calling every callback of `cbs` in order with `(item, value)` delivers. */
  function Fanout(cbs: seq<Callback>, item: string, value: Json): (r: seq<Delivery>)
    ensures |r| <= |cbs|
  {
    if cbs == [] then [] else Deliver(cbs[0], item, value) + Fanout(cbs[1..], item, value)
  }

  /** What calling the notifier once per `(item, value)` of `calls`, in order, delivers. */
  function FanoutEach(cbs: seq<Callback>, calls: seq<(string, Json)>): (r: seq<Delivery>)
    ensures calls == [] ==> r == []
  {
    if calls == [] then [] else Fanout(cbs, calls[0].0, calls[0].1) + FanoutEach(cbs, calls[1..])
  }

  lemma {:induction false} FanoutEachAppend(cbs: seq<Callback>, a: seq<(string, Json)>, b: seq<(string, Json)>)
    ensures FanoutEach(cbs, a + b) == FanoutEach(cbs, a) + FanoutEach(cbs, b)
  {
    if a == [] {
      assert a + b == b;
    } else {
      assert (a + b)[0] == a[0] && (a + b)[1..] == a[1..] + b;
      FanoutEachAppend(cbs, a[1..], b);
      ConcatAssoc(Fanout(cbs, a[0].0, a[0].1), FanoutEach(cbs, a[1..]), FanoutEach(cbs, b));
    }
  }

  /** One call delivers what one fan-out does. */
  lemma FanoutEachOne(cbs: seq<Callback>, item: string, value: Json)
    ensures FanoutEach(cbs, [(item, value)]) == Fanout(cbs, item, value)
  {
    assert [(item, value)][1..] == [];
  }

  /** Deliveries logged after earlier ones are the deliveries of both runs of calls together. */
  lemma DeliveredAppend(cbs: seq<Callback>, log0: seq<Delivery>, a: seq<(string, Json)>, b: seq<(string, Json)>)
    ensures log0 + FanoutEach(cbs, a) + FanoutEach(cbs, b) == log0 + FanoutEach(cbs, a + b)
  {
    FanoutEachAppend(cbs, a, b);
    ConcatAssoc(log0, FanoutEach(cbs, a), FanoutEach(cbs, b));
  }

  /** The index of `c` in `cbs` (`list.index`), or None for ValueError. */
  function IndexOf(cbs: seq<Callback>, c: Callback): (r: Option<nat>)
    ensures r.Some? ==> r.value < |cbs| && cbs[r.value] == c && c !in cbs[..r.value]
    ensures r.None? <==> c !in cbs
  {
    if cbs == [] then None
    else if cbs[0] == c then Some(0)
    else match IndexOf(cbs[1..], c)
      case None => None
      case Some(i) => assert cbs[1..][..i] == cbs[1..i + 1]; Some(i + 1)
  }

  predicate NoDuplicates(cbs: seq<Callback>)
  {
    forall i, j :: 0 <= i < j < |cbs| ==> cbs[i] != cbs[j]
  }

  class Notifier {
    var callbacks: seq<Callback>
    /** Every call made through this notifier. */
    var log: seq<Delivery>
    /** The (item, value) pairs this notifier has been called with. */
    ghost var calls: seq<(string, Json)>
    /** The number of `notify` closures made so far; each gets the next number. */
    var closures: nat

    ghost predicate Valid()
      reads this
    {
      NoDuplicates(callbacks) &&
      (forall c :: c in callbacks ==> !c.NotCallable?) &&
      (forall c :: c in callbacks && c.OnNotify? ==> c.closure < closures)
    }

    constructor ()
      ensures Valid() && callbacks == [] && log == [] && calls == [] && closures == 0
    {
      callbacks := [];
      log := [];
      calls := [];
      closures := 0;
    }

    /** `__call__(item, value)`: every callback once, in registration order. */
    method Call(item: string, value: Json)
      modifies this`log, this`calls
      ensures log == old(log) + Fanout(callbacks, item, value)
      ensures calls == old(calls) + [(item, value)]
    {
      var i := 0;
      while i < |callbacks|
        invariant 0 <= i <= |callbacks|
        invariant log == old(log) + Fanout(callbacks[..i], item, value)
        invariant calls == old(calls)
      {
        FanoutSnoc(callbacks, i, item, value);
        ConcatAssoc(old(log), Fanout(callbacks[..i], item, value), Deliver(callbacks[i], item, value));
        log := log + Deliver(callbacks[i], item, value);
        i := i + 1;
      }
      assert callbacks[..i] == callbacks;
      calls := calls + [(item, value)];
    }

    /**
     * `__add__(callback)`: a non-callable raises TypeError; a callback that
     * is already registered is not added again.
     */
    method Add(c: Callback) returns (r: Result<()>)
      requires Valid()
      requires c.OnNotify? ==> c.closure < closures
      modifies this`callbacks
      ensures Valid()
      ensures r.Err? <==> c.NotCallable?
      ensures callbacks == if r.Err? || c in old(callbacks) then old(callbacks) else old(callbacks) + [c]
    {
      if c.NotCallable? {
        return Err("TypeError");
      }
      if c !in callbacks {
        callbacks := callbacks + [c];
      }
      r := Ok(());
    }

    /**
     * `__sub__(callback)`: removes the callback and keeps the others in
     * order; an unregistered callback raises ValueError and changes nothing.
     */
    method Remove(c: Callback) returns (r: Result<()>)
      requires Valid()
      modifies this`callbacks
      ensures Valid()
      ensures r.Err? <==> c !in old(callbacks)
      ensures r.Ok? ==> (exists i :: 0 <= i < |old(callbacks)| && old(callbacks)[i] == c &&
                                    callbacks == old(callbacks)[..i] + old(callbacks)[i + 1..])
      ensures c !in callbacks
      ensures r.Err? ==> callbacks == old(callbacks)
    {
      var index := IndexOf(callbacks, c);
      if index.None? {
        return Err("ValueError");
      }
      ghost var was := callbacks;
      callbacks := callbacks[..index.value] + callbacks[index.value + 1..];
      assert forall x :: x in callbacks ==> x in was;
      assert c !in callbacks by {
        forall k | 0 <= k < |callbacks| ensures callbacks[k] != c {
          if k < index.value {
            assert callbacks[k] == was[k];
          } else {
            assert callbacks[k] == was[k + 1];
          }
        }
      }
      r := Ok(());
    }

    /** The block's calls, one after the other. */
    method CallEach(block: seq<(string, Json)>)
      modifies this`log, this`calls
      ensures log == old(log) + FanoutEach(callbacks, block)
      ensures calls == old(calls) + block
      decreases |block|
    {
      if block != [] {
        ghost var log0, calls0 := log, calls;
        var (item, value) := block[0];
        Call(item, value);
        CallEach(block[1..]);
        assert FanoutEach(callbacks, block) == Fanout(callbacks, item, value) + FanoutEach(callbacks, block[1..]);
        assert log == log0 + (Fanout(callbacks, item, value) + FanoutEach(callbacks, block[1..]));
        assert calls == calls0 + ([(item, value)] + block[1..]);
        assert [(item, value)] + block[1..] == block;
      }
    }

    /**
     * `registered(c)` around a block that calls the notifier once per
     * `(item, value)` of `block` and then raises when `raises`: `c` is
     * added, then removed in the `finally`, so that it is gone afterwards
     * even when it was registered before the block. A non-callable raises
     * TypeError before the block runs.
     */
    method Registered(c: Callback, block: seq<(string, Json)>, raises: bool) returns (r: Result<()>)
      requires Valid()
      requires c.OnNotify? ==> c.closure < closures
      modifies this`callbacks, this`log, this`calls
      ensures Valid()
      ensures c.NotCallable? ==> r == Err("TypeError") && callbacks == old(callbacks) && log == old(log) && calls == old(calls)
      ensures !c.NotCallable? ==> r == (if raises then Err("Exception") else Ok(()))
      ensures !c.NotCallable? ==>
        log == old(log) + FanoutEach(if c in old(callbacks) then old(callbacks) else old(callbacks) + [c], block) &&
        calls == old(calls) + block
      ensures c !in old(callbacks) ==> callbacks == old(callbacks)
      ensures c in old(callbacks) ==> (c !in callbacks &&
        exists i :: (0 <= i < |old(callbacks)| && old(callbacks)[i] == c &&
                     callbacks == old(callbacks)[..i] + old(callbacks)[i + 1..]))
    {
      var added := Add(c);
      if added.Err? {
        return Err("TypeError");
      }
      ghost var during := callbacks;
      CallEach(block);
      var removed := Remove(c);
      if c !in old(callbacks) {
        var k :| 0 <= k < |during| && during[k] == c && callbacks == during[..k] + during[k + 1..];
        AddRemoveRestores(old(callbacks), c, k);
      }
      r := if raises then Err("Exception") else Ok(());
    }

    /** A fresh `on_notify` closure of `Value.notify`. */
    method NewClosure(name: string, target: nat) returns (c: Callback)
      requires Valid()
      modifies this`closures
      ensures Valid() && closures == old(closures) + 1
      ensures c == OnNotify(name, target, old(closures)) && c !in callbacks
    {
      c := OnNotify(name, target, closures);
      closures := closures + 1;
    }
  }

  /** Calling with no callbacks delivers nothing; with two lists it delivers the first list's calls first. */
  lemma {:induction false} FanoutAppend(a: seq<Callback>, b: seq<Callback>, item: string, value: Json)
    ensures Fanout(a + b, item, value) == Fanout(a, item, value) + Fanout(b, item, value)
  {
    if a == [] {
      assert a + b == b;
    } else {
      FanoutAppend(a[1..], b, item, value);
      FanoutAppendStep(a, b, item, value);
    }
  }

  /** The inductive step of `FanoutAppend`: it holds for `a` once it holds for the tail of `a`. */
  lemma FanoutAppendStep(a: seq<Callback>, b: seq<Callback>, item: string, value: Json)
    requires a != []
    requires Fanout(a[1..] + b, item, value) == Fanout(a[1..], item, value) + Fanout(b, item, value)
    ensures Fanout(a + b, item, value) == Fanout(a, item, value) + Fanout(b, item, value)
  {
    var d := Deliver(a[0], item, value);
    var fa, fb := Fanout(a[1..], item, value), Fanout(b, item, value);
    assert Fanout(a + b, item, value) == d + Fanout(a[1..] + b, item, value) by {
      assert (a + b)[0] == a[0] && (a + b)[1..] == a[1..] + b;
    }
    ConcatAssoc(d, fa, fb);
  }

  /** The callbacks up to and including the `i`-th deliver what those before it deliver, then what it delivers. */
  lemma FanoutSnoc(cbs: seq<Callback>, i: nat, item: string, value: Json)
    requires i < |cbs|
    ensures Fanout(cbs[..i + 1], item, value) == Fanout(cbs[..i], item, value) + Deliver(cbs[i], item, value)
  {
    assert cbs[..i + 1] == cbs[..i] + [cbs[i]];
    FanoutAppend(cbs[..i], [cbs[i]], item, value);
    assert [cbs[i]][1..] == [];
    assert Fanout([cbs[i]], item, value) == Deliver(cbs[i], item, value) + [];
    assert Deliver(cbs[i], item, value) + [] == Deliver(cbs[i], item, value);
  }

  /**
   * After `+= c` then `-= c` of a callback that was not registered, the list
   * is what it was: the `registered` context manager leaves no trace.
   */
  lemma AddRemoveRestores(cbs: seq<Callback>, c: Callback, i: nat)
    requires c !in cbs
    requires i < |cbs + [c]| && (cbs + [c])[i] == c
    ensures (cbs + [c])[..i] + (cbs + [c])[i + 1..] == cbs
  {
    if i < |cbs| {
      assert false;
    }
  }

  /** A closure forwards exactly the values set for its own item. */
  lemma {:induction false} FanoutForwarded(cbs: seq<Callback>, item: string, value: Json, name: string, target: nat, closure: nat)
    requires OnNotify(name, target, closure) in cbs
    requires NoDuplicates(cbs)
    ensures Forwarded(target, value) in Fanout(cbs, item, value) <== item == name
  {
    if cbs[0] != OnNotify(name, target, closure) {
      FanoutForwarded(cbs[1..], item, value, name, target, closure);
    }
  }

  /** The values delivered to callback `target` through `on_notify` closures, in order. */
  function ForwardedTo(target: nat, log: seq<Delivery>): seq<Json>
  {
    if log == [] then []
    else (if log[0].Forwarded? && log[0].target == target then [log[0].value] else []) + ForwardedTo(target, log[1..])
  }

  lemma {:induction false} ForwardedToAppend(target: nat, a: seq<Delivery>, b: seq<Delivery>)
    ensures ForwardedTo(target, a + b) == ForwardedTo(target, a) + ForwardedTo(target, b)
  {
    if a != [] {
      assert (a + b)[0] == a[0] && (a + b)[1..] == a[1..] + b;
      ForwardedToAppend(target, a[1..], b);
      ConcatAssoc(if a[0].Forwarded? && a[0].target == target then [a[0].value] else [],
        ForwardedTo(target, a[1..]), ForwardedTo(target, b));
    } else {
      assert a + b == b;
    }
  }

  /** The values of the calls for item `name`, in order. */
  function ValuesFor(name: string, calls: seq<(string, Json)>): seq<Json>
  {
    if calls == [] then []
    else (if calls[0].0 == name then [calls[0].1] else []) + ValuesFor(name, calls[1..])
  }

  /** No `on_notify` closure of `cbs` forwards to `target`. */
  predicate NoClosureFor(cbs: seq<Callback>, target: nat)
  {
    forall i :: 0 <= i < |cbs| ==> !(cbs[i].OnNotify? && cbs[i].target == target)
  }

  /** Without such a closure, one call forwards nothing to `target`. */
  lemma {:induction false} FanoutForwardsNone(cbs: seq<Callback>, target: nat, item: string, value: Json)
    requires NoClosureFor(cbs, target)
    ensures ForwardedTo(target, Fanout(cbs, item, value)) == []
  {
    if cbs != [] {
      assert NoClosureFor(cbs[1..], target) by {
        forall i | 0 <= i < |cbs[1..]| ensures !(cbs[1..][i].OnNotify? && cbs[1..][i].target == target) {
          assert cbs[1..][i] == cbs[i + 1];
        }
      }
      FanoutForwardsNone(cbs[1..], target, item, value);
      ForwardedToAppend(target, Deliver(cbs[0], item, value), Fanout(cbs[1..], item, value));
      assert !(cbs[0].OnNotify? && cbs[0].target == target);
    }
  }

  /**
   * The closure `Value.notify` appends, when no other closure forwards to
   * the same callback, hands that callback exactly the values notified
   * for its own item, in order, over any run of notifier calls.
   */
  lemma {:induction false} ClosureReceives(cbs: seq<Callback>, name: string, target: nat, closure: nat, calls: seq<(string, Json)>)
    requires NoClosureFor(cbs, target)
    ensures ForwardedTo(target, FanoutEach(cbs + [OnNotify(name, target, closure)], calls)) == ValuesFor(name, calls)
  {
    if calls != [] {
      var c := OnNotify(name, target, closure);
      var (item, value) := calls[0];
      var first := Fanout(cbs + [c], item, value);
      var rest := FanoutEach(cbs + [c], calls[1..]);
      assert FanoutEach(cbs + [c], calls) == first + rest;
      OneCallForwards(cbs, name, target, closure, item, value);
      ClosureReceives(cbs, name, target, closure, calls[1..]);
      ForwardedToAppend(target, first, rest);
    }
  }

  /** One notifier call forwards to `target` the value when the item is the closure's own. */
  lemma OneCallForwards(cbs: seq<Callback>, name: string, target: nat, closure: nat, item: string, value: Json)
    requires NoClosureFor(cbs, target)
    ensures ForwardedTo(target, Fanout(cbs + [OnNotify(name, target, closure)], item, value)) ==
      if item == name then [value] else []
  {
    var c := OnNotify(name, target, closure);
    FanoutAppend(cbs, [c], item, value);
    assert Fanout([c], item, value) == Deliver(c, item, value);
    FanoutForwardsNone(cbs, target, item, value);
    ForwardedToAppend(target, Fanout(cbs, item, value), Deliver(c, item, value));
  }
}
