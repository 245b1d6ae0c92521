/**
 What a run of the forwarder's loops does to the wrapper and to the core,
 as pure functions of the names processed: `Linked` is the wrapper's own
 properties after each name was (re)defined as an accessor to the core,
 `Stored` the core's store after each name was sent its value, and
 `Transfers` the `set` calls the core received. The lemmas say what each
 of them holds at a given name or position.
 */
module Effects {
  import opened KeyOrder
  import opened Runtime

  /** `slots` after `names`, in order, were each defined as an accessor to `core`. */
  function Linked(slots: map<Key, Prop>, names: seq<Key>, core: Core): map<Key, Prop>
    decreases |names|
  {
    if names == [] then slots
    else Linked(slots, names[..|names| - 1], core)[names[|names| - 1] := Forward(core)]
  }

  /** Linking adds exactly the linked names, makes each of them an accessor
      to `core`, and leaves every other property as it was. */
  lemma {:induction false} LinkedAt(slots: map<Key, Prop>, names: seq<Key>, core: Core, k: Key)
    ensures k in Linked(slots, names, core) <==> k in slots || k in names
    ensures k in names ==> Linked(slots, names, core)[k] == Forward(core)
    ensures k !in names && k in slots ==> Linked(slots, names, core)[k] == slots[k]
    decreases |names|
  {
    if names != [] {
      LinkedAt(slots, names[..|names| - 1], core, k);
      assert names == names[..|names| - 1] + [names[|names| - 1]];
    }
  }

  /** `store` after `core.set(k, values[k])` for each `k` of `names`, in order. */
  function Stored(store: map<Key, Value>, names: seq<Key>, values: map<Key, Value>): map<Key, Value>
    decreases |names|
  {
    if names == [] then store
    else
      var k := names[|names| - 1];
      Stored(store, names[..|names| - 1], values)[k := Lookup(values, k)]
  }

  /** Every sent name holds the value sent for it; no other name changes. */
  lemma {:induction false} StoredAt(store: map<Key, Value>, names: seq<Key>, values: map<Key, Value>, k: Key)
    ensures k in Stored(store, names, values) <==> k in store || k in names
    ensures k in names ==> Stored(store, names, values)[k] == Lookup(values, k)
    ensures k !in names && k in store ==> Stored(store, names, values)[k] == store[k]
    decreases |names|
  {
    if names != [] {
      StoredAt(store, names[..|names| - 1], values, k);
      assert names == names[..|names| - 1] + [names[|names| - 1]];
    }
  }

  /** The calls `core.set(k, values[k])`, one per name of `names`, in order. */
  function Transfers(names: seq<Key>, values: map<Key, Value>): seq<SetCall>
    decreases |names|
  {
    if names == [] then []
    else
      var k := names[|names| - 1];
      Transfers(names[..|names| - 1], values) + [SetCall(k, Lookup(values, k))]
  }

  /** One call per name, the j-th for the j-th name with its recorded value. */
  lemma {:induction false} TransfersAt(names: seq<Key>, values: map<Key, Value>)
    ensures |Transfers(names, values)| == |names|
    ensures forall j :: 0 <= j < |names| ==>
      Transfers(names, values)[j] == SetCall(names[j], Lookup(values, names[j]))
    decreases |names|
  {
    if names != [] {
      TransfersAt(names[..|names| - 1], values);
    }
  }

  /** One more name linked, stored and sent. */
  lemma EffectsStep(slots: map<Key, Prop>, store: map<Key, Value>, names: seq<Key>,
                    core: Core, values: map<Key, Value>, k: Key)
    ensures Linked(slots, names + [k], core) == Linked(slots, names, core)[k := Forward(core)]
    ensures Stored(store, names + [k], values) == Stored(store, names, values)[k := Lookup(values, k)]
    ensures Transfers(names + [k], values) == Transfers(names, values) + [SetCall(k, Lookup(values, k))]
  {
    assert (names + [k])[..|names|] == names;
  }

  /** Linking names one at a time keeps the enumeration order and the own
      properties in step: each lists the same names, and the order none twice. */
  lemma LinkedInStep(order: seq<Key>, slots: map<Key, Prop>, added: seq<Key>, core: Core)
    requires NoDup(order) && forall k :: k in slots <==> k in order
    ensures NoDup(Absorb(order, added))
    ensures forall k :: k in Linked(slots, added, core) <==> k in Absorb(order, added)
  {
    AbsorbNoDup(order, added);
    forall k ensures k in Linked(slots, added, core) <==> k in Absorb(order, added) {
      LinkedAt(slots, added, core, k);
    }
  }

  /** Linking names again that are linked already changes nothing: linking
      `first` and then `names`, which lists all of `first`, is linking `names`. */
  lemma Relinked(slots: map<Key, Prop>, first: seq<Key>, names: seq<Key>, core: Core)
    requires forall k :: k in first ==> k in names
    ensures Linked(Linked(slots, first, core), names, core) == Linked(slots, names, core)
  {
    forall k ensures k in Linked(Linked(slots, first, core), names, core) <==> k in Linked(slots, names, core) {
      LinkedAt(Linked(slots, first, core), names, core, k);
      LinkedAt(slots, first, core, k);
      LinkedAt(slots, names, core, k);
    }
    forall k | k in Linked(slots, names, core)
      ensures Linked(Linked(slots, first, core), names, core)[k] == Linked(slots, names, core)[k]
    {
      LinkedAt(Linked(slots, first, core), names, core, k);
      LinkedAt(slots, first, core, k);
      LinkedAt(slots, names, core, k);
    }
  }

  /** Linking the names of a list that started as `extra` and then adopted
      the untracked names of `order` links every name of `order` and of
      `extra`, and nothing else, to `core`. */
  lemma AdoptedAllForward(order: seq<Key>, slots: map<Key, Prop>, extra: seq<Key>, core: Core)
    requires forall k :: k in slots <==> k in order
    ensures
      var linked := Linked(slots, extra + FirstOccurrences(extra, order), core);
      forall k :: (k in linked <==> k in order || k in extra) && (k in linked ==> linked[k] == Forward(core))
  {
    var added := FirstOccurrences(extra, order);
    FirstOccurrencesElems(extra, order);
    forall k ensures
      var linked := Linked(slots, extra + added, core);
      (k in linked <==> k in order || k in extra) && (k in linked ==> linked[k] == Forward(core))
    {
      LinkedAt(slots, extra + added, core, k);
    }
  }
}
