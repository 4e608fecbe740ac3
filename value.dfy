/**
 * The configuration values of value.py: a `Value` names an item of the
 * store its class shares; calling it reads that item (or its default),
 * `set` writes it, and `notify` registers, for the length of a block, a
 * closure that hands the callback every new value of that one item.
 */
module Value {
  import opened Wrappers
  import opened Json
  import opened Store
  import Notifier
  import opened Configuration

  class Value {
    const name: string
    const description: string
    const readonly: bool
    const getter: Getter
    /** The class attribute `_store`: None, or the store shared by the values of a status. */
    const store: Store?
    /** The class attribute `_notifier`: None, or the notifier shared with the store. */
    const notifier: Notifier.Notifier?

    /**
     * `Value(name, description, readonly, default)` of a class whose
     * `_store` and `_notifier` are `store` and `notifier`; without a
     * default the getter gives None.
     */
    constructor (name: string, description: string, readonly: bool, default: Option<Getter>,
                 store: Store?, notifier: Notifier.Notifier?)
      ensures this.name == name && this.description == description && this.readonly == readonly
      ensures this.store == store && this.notifier == notifier
      ensures default.Some? ==> getter == default.value
      ensures default.None? ==> forall data :: getter(data) == Ok(JNull)
    {
      this.name := name;
      this.description := description;
      this.readonly := readonly;
      if default.Some? {
        this.getter := default.value;
      } else {
        this.getter := _ => Ok(JNull);
      }
      this.store := store;
      this.notifier := notifier;
    }

    /**
     * `__call__()`: None without a store; otherwise `store.get(name)`, or
     * the getter's value when that is None. A ValueError from `get`
     * propagates.
     */
    function Read(): (r: Result<Json>)
      reads this, store
      ensures store == null ==> r == Ok(JNull)
      ensures store != null ==> r == ValueOf(Configuration.Value(name, description, readonly, false, getter), store.data)
    {
      if store == null then Ok(JNull)
      else match Lookup(store.data, Path(name))
        case Err(e) => Err(e)
        case Ok(x) => if x == JNull then getter(store.data) else Ok(x)
    }

    /**
     * `set(value)`: a read-only value raises ValueError and changes
     * nothing; without a store nothing happens; otherwise the value goes
     * through `store.set`, and calling the value afterwards gives it back.
     */
    method Set(value: Json) returns (r: Result<()>)
      requires WellFormed(value)
      requires store != null ==> store.Valid()
      modifies if store == null then {} else {store, store.notifier}
      ensures store != null ==> store.Valid()
      ensures readonly ==> r == Err("ValueError")
      ensures readonly && store != null ==>
        store.data == old(store.data) &&
        store.notifier.calls == old(store.notifier.calls) && store.notifier.log == old(store.notifier.log)
      ensures !readonly && store == null ==> r == Ok(())
      ensures !readonly && store != null ==>
        r == (if Lookup(old(store.data), Path(name)).Ok? then Ok(()) else Err("ValueError"))
      ensures !readonly && store != null ==> (r.Ok? <==> SetIn(old(store.data), Path(name), value).Ok?)
      ensures !readonly && store != null && r.Ok? ==> store.data == SetIn(old(store.data), Path(name), value).value.0
      ensures !readonly && store != null ==> var changed := r.Ok? && !PyEq(value, Lookup(old(store.data), Path(name)).value);
        store.notifier.calls == old(store.notifier.calls) + (if changed then [(name, value)] else [])
      ensures !readonly && store != null && r.Ok? && value != JNull ==> Read().Ok? && PyEq(value, Read().value)
    {
      if readonly {
        return Err("ValueError");
      }
      if store == null {
        return Ok(());
      }
      r := store.Set(name, value);
      if r.Ok? && value != JNull {
        var x := Lookup(store.data, Path(name)).value;
        assert PyEq(value, x);
        assert x != JNull by {
          if x == JNull {
            match value
            case JBool(_) =>
            case _ =>
          }
        }
      }
    }

    /**
     * `with notify(callback): <block>`, where the block makes the notifier
     * calls `block` and then raises when `raises`. Without a notifier the
     * block just runs. Otherwise a fresh `on_notify` closure is added for
     * the block and removed after it, raise or not: the callbacks are as
     * before, and, when no other closure forwards to the same callback,
     * the callback received exactly the values notified for `name`.
     */
    method Notify(target: nat, block: seq<(string, Json)>, raises: bool) returns (r: Result<()>)
      requires notifier != null ==> notifier.Valid()
      modifies notifier
      ensures r == if raises then Err("Exception") else Ok(())
      ensures notifier != null ==> notifier.Valid() && notifier.callbacks == old(notifier.callbacks)
      ensures notifier != null ==> notifier.calls == old(notifier.calls) + block
      ensures notifier != null ==>
        notifier.log == old(notifier.log) +
          Notifier.FanoutEach(old(notifier.callbacks) + [Notifier.OnNotify(name, target, old(notifier.closures))], block)
      ensures notifier != null && Notifier.NoClosureFor(old(notifier.callbacks), target) ==>
        Notifier.ForwardedTo(target, notifier.log[|old(notifier.log)|..]) == Notifier.ValuesFor(name, block)
    {
      if notifier == null {
        return if raises then Err("Exception") else Ok(());
      }
      var c := notifier.NewClosure(name, target);
      r := notifier.Registered(c, block, raises);
      assert notifier.log[|old(notifier.log)|..] == Notifier.FanoutEach(old(notifier.callbacks) + [c], block);
      if Notifier.NoClosureFor(old(notifier.callbacks), target) {
        Notifier.ClosureReceives(old(notifier.callbacks), name, target, old(notifier.closures), block);
      }
    }
  }
}
