/**
 The accessor-forwarding registry of `index.js`.

 The module-level weak map from a wrapper to `{core, keys}` is a `Registry`
 object passed to every operation. The tracked `keys` array is a `KeyList`
 object, stored by reference exactly as the caller handed it over, so that
 the pushes made while migrating are visible through every alias of it.
 An argument the caller may omit (`keys || []`) is a nullable reference;
 null stands for "omitted" and is replaced by a fresh empty list.
 */
module SetGetWrapper {
  import opened KeyOrder
  import opened Runtime
  import opened Effects

  /** The JavaScript array of tracked names. */
  class KeyList {
    var items: seq<Key>

    constructor (items: seq<Key>)
      ensures this.items == items
    {
      this.items := items;
    }

    /** `list.indexOf(key)`: the first position holding `key`, or -1. */
    method IndexOf(key: Key) returns (at: int)
      ensures at == -1 <==> key !in items
      ensures at != -1 ==> 0 <= at < |items| && items[at] == key && key !in items[..at]
    {
      at := 0;
      while at < |items|
        invariant 0 <= at <= |items|
        invariant key !in items[..at]
      {
        if items[at] == key {
          return;
        }
        at := at + 1;
      }
      at := -1;
    }

    /** `list.push(key)`. */
    method Push(key: Key)
      modifies this
      ensures items == old(items) + [key]
    {
      items := items + [key];
    }
  }

  /** A registry record `{core: core, keys: keys}`. */
  datatype Entry = Entry(core: Core, keys: KeyList)

  /** The process-wide association from a wrapper to its record. */
  class Registry {
    var entries: map<Wrapper, Entry>

    constructor ()
      ensures entries == map[]
    {
      entries := map[];
    }

    /** What `UpdateKeys` may change for `wrapper`: the wrapper itself, its
        tracked list and its core; nothing when it is not registered. */
    function Footprint(wrapper: Wrapper): set<object>
      reads this
    {
      if wrapper in entries
      then {wrapper as object, entries[wrapper].keys as object, entries[wrapper].core as object}
      else {}
    }
  }

  /** The outcome of `updateKeys`: it returns, or throws a `TypeError`. */
  datatype Status = Done | TypeError(message: string)

  const NotAWrapper := "Argument must be an instance of SetGetWrapper"

  /** `_linkWrapperToCore`: (re)defines `key` on the wrapper as an accessor
      whose getter is `core.get(key)` and whose setter is `core.set(key, v)`.
      A new name is appended to the enumeration order, an existing one keeps
      its place; no other property changes and the core is not called. */
  method LinkWrapperToCore(wrapper: Wrapper, core: Core, key: Key)
    requires key in wrapper.slots <==> key in wrapper.order
    modifies wrapper
    ensures old(wrapper.Valid()) ==> wrapper.Valid()
    ensures wrapper.slots == old(wrapper.slots)[key := Forward(core)]
    ensures wrapper.order == Absorb(old(wrapper.order), [key])
    ensures wrapper.Read(key) == core.Get(key)
    ensures forall k :: k != key ==> wrapper.Read(k) == old(wrapper.Read(k))
  {
    if key !in wrapper.slots {
      wrapper.order := wrapper.order + [key];
    }
    wrapper.slots := wrapper.slots[key := Forward(core)];
  }

  /** The state a run of `updateKeys` starts from: the tracked list, the
      wrapper's own properties, the store and log of its core, and the
      stores of the other cores the wrapper forwards to. */
  datatype Start = Start(tracked: seq<Key>, order: seq<Key>, slots: map<Key, Prop>,
                         store: map<Key, Value>, log: seq<SetCall>,
                         others: map<Core, map<Key, Value>>)

  /** Every accessor of the starting wrapper forwards to `core` or to one of
      the other cores recorded. */
  predicate Covered(start: Start, core: Core) {
    forall k :: k in start.slots && start.slots[k].Forward? ==>
      start.slots[k].core == core || start.slots[k].core in start.others
  }

  /** What `key` read when the run started. */
  function StartRead(start: Start, core: Core, key: Key): Value {
    if key !in start.slots then Undefined
    else match start.slots[key]
      case Data(v) => v
      case Forward(c) =>
        if c == core then Lookup(start.store, key)
        else if c in start.others then Lookup(start.others[c], key)
        else Undefined
  }

  /** The other cores still hold what they held at the start. */
  ghost predicate OthersKept(start: Start)
    reads start.others.Keys
  {
    forall c :: c in start.others ==> c.store == start.others[c]
  }

  /** A name the run has not added yet still reads what it read at the start. */
  lemma ReadNow(wrapper: Wrapper, core: Core, start: Start, added: seq<Key>,
                before: map<Key, Value>, key: Key)
    requires wrapper.slots == Linked(start.slots, added, core)
    requires core.store == Stored(start.store, added, before)
    requires key !in added && Covered(start, core) && OthersKept(start)
    ensures wrapper.Read(key) == StartRead(start, core, key)
  {
    LinkedAt(start.slots, added, core, key);
    StoredAt(start.store, added, before, key);
  }

  /** Halfway through `updateKeys`: the names `added` so far were pushed,
      linked and sent their values from `before`, in that order, and nothing
      else changed. */
  ghost predicate Migrating(wrapper: Wrapper, core: Core, keys: KeyList, start: Start,
                           added: seq<Key>, before: map<Key, Value>)
    reads wrapper, core, keys
  {
    && keys.items == start.tracked + added
    && wrapper.order == Absorb(start.order, added)
    && wrapper.slots == Linked(start.slots, added, core)
    && core.store == Stored(start.store, added, before)
    && core.log == start.log + Transfers(added, before)
  }

  /** The part of the `updateKeys` callback run for a name that is not
      tracked yet: it is pushed onto the tracked list, the wrapper's value for
      it is read, the name is linked to the core and that value is handed to
      `core.set`. What the name reads does not change. */
  method AdoptKey(wrapper: Wrapper, core: Core, keys: KeyList, key: Key)
    requires key in wrapper.slots <==> key in wrapper.order
    modifies wrapper, keys, core
    ensures keys.items == old(keys.items) + [key]
    ensures wrapper.slots == old(wrapper.slots)[key := Forward(core)]
    ensures wrapper.order == Absorb(old(wrapper.order), [key])
    ensures core.store == old(core.store)[key := old(wrapper.Read(key))]
    ensures core.log == old(core.log) + [SetCall(key, old(wrapper.Read(key)))]
    ensures wrapper.Read(key) == old(wrapper.Read(key))
  {
    keys.Push(key);
    var value := wrapper.Read(key);
    LinkWrapperToCore(wrapper, core, key);
    core.Set(key, value);
  }

  /** The callback `updateKeys` maps over the candidates: a name already
      tracked is skipped, any other one is adopted. */
  method MigrateKey(wrapper: Wrapper, core: Core, keys: KeyList, key: Key, ghost seen: seq<Key>,
                    ghost start: Start, ghost added: seq<Key>, ghost before: map<Key, Value>)
    returns (ghost added': seq<Key>)
    requires Migrating(wrapper, core, keys, start, added, before)
    requires forall k :: k in start.slots <==> k in start.order
    requires Covered(start, core) && OthersKept(start) && core !in start.others
    requires key !in keys.items ==> Lookup(before, key) == StartRead(start, core, key)
    requires keys.items == Absorb(start.tracked, seen)
    modifies wrapper, keys, core
    ensures added' == if old(key in keys.items) then added else added + [key]
    ensures keys.items == Absorb(start.tracked, seen + [key])
    ensures Migrating(wrapper, core, keys, start, added', before)
    ensures OthersKept(start)
  {
    AbsorbStep(start.tracked, seen, key);
    var at := keys.IndexOf(key);
    if at != -1 {
      return added;
    }
    assert start.tracked + added + [key] == start.tracked + (added + [key]);
    assert start.log + Transfers(added, before) + [SetCall(key, Lookup(before, key))]
        == start.log + (Transfers(added, before) + [SetCall(key, Lookup(before, key))]);
    ReadNow(wrapper, core, start, added, before, key);
    LinkedAt(start.slots, added, core, key);
    AbsorbElems(start.order, added);
    AbsorbOne(wrapper.order, key);
    AdoptKey(wrapper, core, keys, key);
    added' := added + [key];
    AbsorbStep(start.order, added, key);
    EffectsStep(start.slots, start.store, added, core, before, key);
    assert keys.items == start.tracked + added';
    assert wrapper.order == Absorb(start.order, added');
    assert wrapper.slots == Linked(start.slots, added', core);
    assert core.store == Stored(start.store, added', before);
    assert core.log == start.log + Transfers(added', before);
  }

  /** The `newKeys.map(...)` loop of `updateKeys`, started from the state
      `start`, in which the candidates read what `before` records. The names
      it adds are the untracked candidates in first-occurrence order; each is
      pushed, linked and sent its value from `before`, exactly once, in that
      order. */
  method Migrate(wrapper: Wrapper, core: Core, keys: KeyList, cands: seq<Key>,
                 ghost start: Start, ghost before: map<Key, Value>)
    requires Migrating(wrapper, core, keys, start, [], before)
    requires NoDup(start.order) && forall k :: k in start.slots <==> k in start.order
    requires Covered(start, core) && OthersKept(start) && core !in start.others
    requires forall k :: k in cands ==> Lookup(before, k) == StartRead(start, core, k)
    modifies wrapper, keys, core
    ensures wrapper.Valid()
    ensures Migrating(wrapper, core, keys, start, FirstOccurrences(start.tracked, cands), before)
  {
    ghost var added: seq<Key> := [];
    var i := 0;
    while i < |cands|
      invariant 0 <= i <= |cands|
      invariant Migrating(wrapper, core, keys, start, added, before)
      invariant keys.items == Absorb(start.tracked, cands[..i])
      invariant OthersKept(start)
    {
      var key := cands[i];
      assert key in cands && cands[..i + 1] == cands[..i] + [key];
      added := MigrateKey(wrapper, core, keys, key, cands[..i], start, added, before);
      i := i + 1;
    }
    assert cands[..i] == cands;
    AppendedIsFirstOccurrences(start.tracked, cands, added);
    LinkedInStep(start.order, start.slots, added, core);
  }

  /** `updateKeys` once the wrapper's core, its tracked list and the
      candidate names are known: `Migrate`, after which every name of the
      wrapper still reads what it read before, the migrated ones now through
      the core. */
  method Track(wrapper: Wrapper, core: Core, keys: KeyList, cands: seq<Key>)
    requires wrapper.Valid()
    modifies wrapper, keys, core
    ensures wrapper.Valid()
    ensures
      var added := FirstOccurrences(old(keys.items), cands);
      && keys.items == old(keys.items) + added
      && wrapper.order == Absorb(old(wrapper.order), added)
      && wrapper.slots == Linked(old(wrapper.slots), added, core)
      && core.store == Stored(old(core.store), added, old(wrapper.Snapshot()))
      && core.log == old(core.log) + Transfers(added, old(wrapper.Snapshot()))
      && (forall k :: wrapper.Read(k) == old(wrapper.Read(k)))
  {
    ghost var before := wrapper.Snapshot();
    ghost var others := map c | c in wrapper.Cores() && c != core :: c.store;
    ghost var start := Start(keys.items, wrapper.order, wrapper.slots, core.store, core.log, others);
    forall k | k in wrapper.slots && wrapper.slots[k].Forward?
      ensures wrapper.slots[k].core == core || wrapper.slots[k].core in others
    {
      assert wrapper.slots[k].core in wrapper.Cores();
    }
    forall k | k in cands ensures Lookup(before, k) == StartRead(start, core, k) {
      ReadNow(wrapper, core, start, [], before, k);
    }
    Migrate(wrapper, core, keys, cands, start, before);
    ghost var added := FirstOccurrences(old(keys.items), cands);
    FirstOccurrencesElems(old(keys.items), cands);
    forall k ensures wrapper.Read(k) == old(wrapper.Read(k)) {
      LinkedAt(old(wrapper.slots), added, core, k);
      StoredAt(old(core.store), added, before, k);
    }
  }

  /** `updateKeys(wrapper, newKeys)`. An unregistered wrapper is refused with
      a `TypeError` before anything changes. Otherwise the candidates are
      `newKeys`, or the wrapper's own enumerable names when it is omitted;
      the untracked ones are appended to the tracked list once each, in
      first-occurrence order, become accessors to the core, and have the
      value they held sent to `core.set`, once each and in that order
      (`LinkedAt`, `StoredAt` and `TransfersAt` spell these out name by
      name). Names already tracked are neither relinked nor sent, and every
      name of the wrapper reads afterwards what it read before. */
  method UpdateKeys(reg: Registry, wrapper: Wrapper, newKeys: KeyList?) returns (status: Status)
    requires wrapper.Valid()
    modifies reg.Footprint(wrapper)
    ensures wrapper.Valid()
    ensures status == if old(wrapper in reg.entries) then Done else TypeError(NotAWrapper)
    ensures status.TypeError? ==> unchanged(wrapper)
    ensures old(wrapper in reg.entries) ==>
      var core, keys := old(reg.entries[wrapper].core), old(reg.entries[wrapper].keys);
      var cands := if newKeys != null then old(newKeys.items) else old(wrapper.order);
      var added := FirstOccurrences(old(keys.items), cands);
      // the tracked list gains the untracked candidates, in first-occurrence order
      && keys.items == old(keys.items) + added
      // exactly those names are (re)defined as accessors to the core
      && wrapper.order == Absorb(old(wrapper.order), added)
      && wrapper.slots == Linked(old(wrapper.slots), added, core)
      // one `core.set` per added name, carrying the value it read before
      && core.store == Stored(old(core.store), added, old(wrapper.Snapshot()))
      && core.log == old(core.log) + Transfers(added, old(wrapper.Snapshot()))
      // reading through the wrapper is unaffected
      && (forall k :: wrapper.Read(k) == old(wrapper.Read(k)))
  {
    if wrapper !in reg.entries {
      return TypeError(NotAWrapper);
    }
    var entry := reg.entries[wrapper];
    var core, keys := entry.core, entry.keys;
    var cands: seq<Key>;
    if newKeys != null {
      cands := newKeys.items;
    } else {
      cands := wrapper.order;  // `Object.keys(wrapper)`
    }
    Track(wrapper, core, keys, cands);
    return Done;
  }

  /** The `keys.map(...)` loop that links each listed name to the core, as
      the constructor and `useAsWrapper` run it: every name becomes an
      accessor to `core`, a new one appended to the enumeration order and an
      existing one kept in place, in the order listed and duplicates
      included. Only the wrapper changes; the core is not called. */
  method LinkAll(wrapper: Wrapper, core: Core, names: seq<Key>)
    requires wrapper.Valid()
    modifies wrapper
    ensures wrapper.Valid()
    ensures wrapper.order == Absorb(old(wrapper.order), names)
    ensures wrapper.slots == Linked(old(wrapper.slots), names, core)
    ensures forall k :: k in names ==> wrapper.Read(k) == core.Get(k)
    ensures forall k :: k !in names ==> wrapper.Read(k) == old(wrapper.Read(k))
  {
    var i := 0;
    while i < |names|
      invariant 0 <= i <= |names|
      invariant wrapper.Valid()
      invariant wrapper.order == Absorb(old(wrapper.order), names[..i])
      invariant wrapper.slots == Linked(old(wrapper.slots), names[..i], core)
    {
      var key := names[i];
      assert names[..i + 1] == names[..i] + [key];
      AbsorbOne(wrapper.order, key);
      LinkWrapperToCore(wrapper, core, key);
      AbsorbStep(old(wrapper.order), names[..i], key);
      EffectsStep(old(wrapper.slots), map[], names[..i], core, map[], key);
      i := i + 1;
    }
    assert names[..i] == names;
    forall k ensures k in names ==> wrapper.Read(k) == core.Get(k) {
      LinkedAt(old(wrapper.slots), names, core, k);
    }
    forall k | k !in names ensures wrapper.Read(k) == old(wrapper.Read(k)) {
      LinkedAt(old(wrapper.slots), names, core, k);
    }
  }

  /** `new SetGetWrapper(core, keys)` (called with or without `new`): a new
      empty object is registered with `core` and with the list `keys` itself,
      or a fresh empty list when it is omitted. The list is neither copied nor
      deduplicated. Each listed name becomes an accessor to the core, in list
      order and once per distinct name, so every listed name reads what the
      core holds for it and nothing else is defined. Nothing is sent to the
      core. */
  method Construct(reg: Registry, core: Core, keys: KeyList?) returns (wrapper: Wrapper)
    modifies reg
    ensures fresh(wrapper) && wrapper.Valid()
    ensures wrapper in reg.entries && reg.entries == old(reg.entries)[wrapper := reg.entries[wrapper]]
    ensures reg.entries[wrapper].core == core
    ensures keys != null ==> reg.entries[wrapper].keys == keys && keys.items == old(keys.items)
    ensures keys == null ==> fresh(reg.entries[wrapper].keys) && reg.entries[wrapper].keys.items == []
    ensures
      var names := reg.entries[wrapper].keys.items;
      && wrapper.order == FirstOccurrences([], names)
      && wrapper.slots == Linked(map[], names, core)
      && (forall k :: wrapper.Read(k) == if k in names then core.Get(k) else Undefined)
    ensures unchanged(core)
  {
    wrapper := new Wrapper();
    var list: KeyList;
    if keys != null {
      list := keys;
    } else {
      list := new KeyList([]);
    }
    reg.entries := reg.entries[wrapper := Entry(core, list)];
    LinkAll(wrapper, core, list.items);
    AbsorbAppendsFirstOccurrences([], list.items);
  }

  /** What `useAsWrapper` does once `wrapper` is registered with `core` and
      the list `keys`, where `before` is what the wrapper's names read:
      `updateKeys(wrapper)` adopts the object's own names that the list does
      not hold, then every name of the list, the ones it held and the ones
      just adopted, is linked to the core. The names the list held are not
      sent to the core and afterwards read what the core held for them;
      every other name reads what it read before, the adopted ones having
      been sent their values once each, in enumeration order. */
  method AdoptOwn(reg: Registry, wrapper: Wrapper, core: Core, keys: KeyList, ghost before: map<Key, Value>)
    requires wrapper.Valid()
    requires wrapper in reg.entries && reg.entries[wrapper] == Entry(core, keys)
    requires before == wrapper.Snapshot()
    modifies wrapper, keys, core
    ensures wrapper.Valid()
    ensures
      var added := FirstOccurrences(old(keys.items), old(wrapper.order));
      && keys.items == old(keys.items) + added
      && wrapper.order == Absorb(old(wrapper.order), old(keys.items))
      && wrapper.slots == Linked(old(wrapper.slots), old(keys.items) + added, core)
      && core.store == Stored(old(core.store), added, before)
      && core.log == old(core.log) + Transfers(added, before)
    ensures forall k :: wrapper.Read(k) == Lookup(if k in old(keys.items) then old(core.store) else before, k)
  {
    var status := UpdateKeys(reg, wrapper, null);
    ghost var extra := old(keys.items);
    ghost var added := FirstOccurrences(extra, old(wrapper.order));
    assert keys.items == extra + added;
    LinkAll(wrapper, core, keys.items);
    AdoptedOrder(old(wrapper.order), extra);
    FirstOccurrencesElems(extra, old(wrapper.order));
    Relinked(old(wrapper.slots), added, extra + added, core);
    forall k ensures wrapper.Read(k) == Lookup(if k in extra then old(core.store) else before, k) {
      LinkedAt(old(wrapper.slots), extra + added, core, k);
      StoredAt(old(core.store), added, before, k);
    }
  }

  /** `SetGetWrapper.useAsWrapper(wrapper, core, extraKeys)`: the existing
      object is registered with `core` and the list `extraKeys` itself (a
      fresh empty list when omitted), and its own names are adopted as
      `AdoptOwn` says. The extra names are tracked before the adoption runs,
      so their own values are not sent to the core: afterwards they read
      what the core held. Every other own name is sent its value once and
      keeps reading it, and every own property ends up forwarding to the
      core. */
  method UseAsWrapper(reg: Registry, wrapper: Wrapper, core: Core, extraKeys: KeyList?)
    requires wrapper.Valid()
    modifies reg, wrapper, core, extraKeys
    ensures wrapper.Valid()
    ensures wrapper in reg.entries && reg.entries == old(reg.entries)[wrapper := reg.entries[wrapper]]
    ensures reg.entries[wrapper].core == core
    ensures extraKeys != null ==> reg.entries[wrapper].keys == extraKeys
    ensures extraKeys == null ==> fresh(reg.entries[wrapper].keys)
    ensures
      var extra := if extraKeys != null then old(extraKeys.items) else [];
      var added := FirstOccurrences(extra, old(wrapper.order));
      && reg.entries[wrapper].keys.items == extra + added
      && wrapper.order == Absorb(old(wrapper.order), extra)
      && wrapper.slots == Linked(old(wrapper.slots), extra + added, core)
      && core.store == Stored(old(core.store), added, old(wrapper.Snapshot()))
      && core.log == old(core.log) + Transfers(added, old(wrapper.Snapshot()))
    ensures
      var extra := if extraKeys != null then old(extraKeys.items) else [];
      forall k :: wrapper.Read(k) == if k in extra then old(core.Get(k)) else old(wrapper.Read(k))
    ensures
      var extra := if extraKeys != null then old(extraKeys.items) else [];
      forall k :: k in wrapper.slots <==> k in old(wrapper.order) || k in extra
    ensures forall k :: k in wrapper.slots ==> wrapper.slots[k] == Forward(core)
  {
    ghost var before := wrapper.Snapshot();
    ghost var extra := if extraKeys != null then extraKeys.items else [];
    var list: KeyList;
    if extraKeys != null {
      list := extraKeys;
    } else {
      list := new KeyList([]);
    }
    reg.entries := reg.entries[wrapper := Entry(core, list)];
    assert wrapper.Snapshot() == before;
    AdoptOwn(reg, wrapper, core, list, before);
    AdoptedAllForward(old(wrapper.order), old(wrapper.slots), extra, core);
  }
}
