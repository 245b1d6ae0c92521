/**
 The pieces of the JavaScript runtime that the forwarder works on.

 A `Wrapper` is any object: an ordered set of own enumerable properties, each
 either a plain data value or a forwarding accessor that sends reads and
 writes for its name to a `Core`. A `Core` is the opaque get/set store the
 caller supplies; here it is a map from name to value that also records,
 in order, every `set` call it receives, so that what a caller sends to it
 can be stated.
 */
module Runtime {
  import opened KeyOrder

  /** The JavaScript values that flow through the forwarder. */
  datatype Value = Undefined | Number(n: int) | Text(s: string)

  /** The value `values` records for `k`, undefined when it records none. */
  function Lookup(values: map<Key, Value>, k: Key): Value {
    if k in values then values[k] else Undefined
  }

  /** One call `core.set(key, value)`. */
  datatype SetCall = SetCall(key: Key, value: Value)

  class Core {
    var store: map<Key, Value>
    var log: seq<SetCall>

    constructor ()
      ensures store == map[] && log == []
    {
      store := map[];
      log := [];
    }

    /** `core.get(key)`: the stored value, undefined for a name never set. */
    function Get(key: Key): Value
      reads this
    {
      if key in store then store[key] else Undefined
    }

    /** `core.set(key, value)`. */
    method Set(key: Key, value: Value)
      modifies this
      ensures store == old(store)[key := value]
      ensures log == old(log) + [SetCall(key, value)]
      ensures Get(key) == value
      ensures forall k :: k != key ==> Get(k) == old(Get(k))
    {
      store := store[key := value];
      log := log + [SetCall(key, value)];
    }
  }

  /** An own property: a data value, or an accessor whose getter is
      `core.get(name)` and whose setter is `core.set(name, v)`. */
  datatype Prop = Data(value: Value) | Forward(core: Core)

  class Wrapper {
    /** Own property names in enumeration order (the order `Object.keys` gives). */
    var order: seq<Key>
    var slots: map<Key, Prop>

    /** The names in `order` are distinct and are exactly the own properties. */
    ghost predicate Valid()
      reads this
    {
      NoDup(order) && forall k :: k in slots <==> k in order
    }

    /** An empty object literal `{}`. */
    constructor ()
      ensures Valid() && order == [] && slots == map[]
    {
      order := [];
      slots := map[];
    }

    /** The core the property `key` forwards to, if it is an accessor. */
    function Target(key: Key): set<Core>
      reads this
    {
      if key in slots && slots[key].Forward? then {slots[key].core} else {}
    }

    /** `wrapper[key]`: a data value is returned, an accessor asks its core,
        and a name that is not an own property reads as undefined. */
    function Read(key: Key): (r: Value)
      reads this, Target(key)
      ensures key !in slots ==> r == Undefined
      ensures key in slots && slots[key].Data? ==> r == slots[key].value
      ensures key in slots && slots[key].Forward? ==> r == Lookup(slots[key].core.store, key)
    {
      if key !in slots then Undefined
      else match slots[key]
        case Data(v) => v
        case Forward(core) => core.Get(key)
    }

    /** The cores this object's accessors forward to. */
    function Cores(): set<Core>
      reads this
    {
      set k | k in slots && slots[k].Forward? :: slots[k].core
    }

    /** What every name of this object reads right now. */
    function Snapshot(): (m: map<Key, Value>)
      reads this, Cores()
      ensures forall k :: Lookup(m, k) == Read(k)
    {
      map k | k in slots :: Read(k)
    }

    /** `wrapper[key] = value`: an accessor hands the value to its core and
        keeps no copy; otherwise the own data property is created or
        overwritten. Either way the name reads back as `value`, and no other
        name of this object changes. */
    method Assign(key: Key, value: Value)
      requires Valid()
      modifies this, Target(key)
      ensures Valid()
      ensures Read(key) == value
      ensures forall k :: k != key ==> Read(k) == old(Read(k))
      ensures old(key in slots && slots[key].Forward?) ==>
        && slots == old(slots) && order == old(order)
        && slots[key].core.store == old(slots[key].core.store)[key := value]
        && slots[key].core.log == old(slots[key].core.log) + [SetCall(key, value)]
      ensures old(key !in slots || slots[key].Data?) ==>
        && slots == old(slots)[key := Data(value)]
        && order == Absorb(old(order), [key])
    {
      if key in slots && slots[key].Forward? {
        var core := slots[key].core;
        core.Set(key, value);
      } else {
        if key !in slots {
          order := order + [key];
        }
        slots := slots[key := Data(value)];
      }
    }
  }
}
