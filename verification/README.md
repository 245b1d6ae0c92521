# set-get-wrapper, modelled in Dafny

`set-get-wrapper` turns an ordinary JavaScript object (the *wrapper*) into a
property-style front end for a *core*, which is an object with a generic
`get(key)` / `set(key, value)` API. Each name the library links is
redefined on the wrapper as an accessor:
- reading `wrapper[key]` returns `core.get(key)`;
- assigning `wrapper[key] = v` calls `core.set(key, v)`.

A module-level weak map associates every wrapper with its record
`{core, keys}`, where `keys` is the array of tracked names.

The library has three entry points and one internal helper:
- the constructor `SetGetWrapper(core, keys)`, which registers a new object
  and links every listed name;
- `useAsWrapper(wrapper, core, extraKeys)`, which adopts an existing object;
- `updateKeys(wrapper, newKeys)`, which adopts names the wrapper does not
  track yet: it pushes each onto the tracked list, links it to the core and
  hands the core the value the name held;
- the internal helper `_linkWrapperToCore`, which installs one accessor
  (declared at module scope and not exported).

## Model

The project is split into five modules; the first four are:
- `KeyOrder` (`key_order.dfy`) gives the bookkeeping of names as pure
  functions:
  - `Absorb` pushes each candidate unless it is already present;
  - `FirstOccurrences` is an independent description of what gets appended.
- `Runtime` (`runtime.dfy`) holds the parts of the JavaScript runtime the
  library touches:
  - a `Core` store that also records every `set` call it receives, in
    order, as `log`;
  - a `Wrapper` object whose own enumerable properties, in `Object.keys`
    order, are each a data value or a forwarding accessor.
- `Effects` (`effects.dfy`) states, as functions of the names processed,
  what a run does:
  - `Linked` is the wrapper's properties afterwards;
  - `Stored` is the core's store afterwards;
  - `Transfers` is the `set` calls made.
- `SetGetWrapper` (`set_get_wrapper.dfy`) models the library itself:
  - the weak map is a `Registry` object, passed explicitly;
  - the tracked array is a `KeyList` object, stored by reference, so pushes
    are seen through every alias;
  - an argument the caller may omit (`keys || []`) is a nullable reference.

`Scenarios` (`scenarios.dfy`) states what the library does on concrete objects.

`Wrapper.Valid()` says that the enumeration order lists each own property
exactly once. Every object the model creates satisfies it, and every
operation preserves it. It is required of the wrappers passed in because a
JavaScript object always has this shape.

`useAsWrapper({x: 5, y: 9}, core, ['x'])` migrates `y`:
its 9 is sent to the core and `y` is forwarded. It does not send `x`'s 5,
because `x` is already tracked when `updateKeys` runs (`AdoptExisting`).

| member | source | states |
|---|---|---|
| KeyOrder.AbsorbElems | index.js:48-51 | Pushing unseen candidates only appends: the old list is a prefix of the result. The result holds exactly the old names and the candidates. |
| KeyOrder.FirstOccurrencesElems | index.js:48-51 | The appended names are exactly the candidates not tracked before, with no duplicates. |
| KeyOrder.AbsorbAppendsFirstOccurrences | index.js:48-51 | The dedup-and-push loop leaves `tracked + FirstOccurrences(tracked, cands)`: the untracked candidates, each at its first occurrence. |
| KeyOrder.AppendedIsFirstOccurrences | index.js:48-51 | What a run appended is necessarily `FirstOccurrences`. |
| KeyOrder.AbsorbNoDup | index.js:50-51 | A duplicate-free tracked list stays duplicate-free. |
| KeyOrder.AbsorbCovered | index.js:50 | Candidates that are all tracked change nothing. |
| KeyOrder.AbsorbConcat | index.js:48-51 | Two batches in turn equal one batch of their concatenation. |
| KeyOrder.AbsorbIdempotent | index.js:50 | Running the same candidates again is a no-op. |
| KeyOrder.AbsorbOne | index.js:50-51 | One candidate is appended unless present. |
| KeyOrder.AbsorbStep | index.js:48-51 | One more candidate is appended unless already absorbed. |
| KeyOrder.AdoptedOrder | index.js:30-36 | Adopting own names into `extra` and then relinking the list extends the enumeration order by `extra` alone. |
| Runtime.Core.Set | index.js:65 | `core.set(key, v)` stores `v` under `key`, records the call, leaves other names unchanged, and `get(key)` returns `v`. |
| Runtime.Wrapper.constructor | index.js:11-15 | The object that `new` creates has no own properties. |
| Runtime.Wrapper.Read | index.js:64 | `wrapper[key]`: a data property gives its value, an accessor gives what its core stores for the name (`core.get(key)`), and a name that is not an own property reads undefined. |
| Runtime.Wrapper.Assign | index.js:63-65 | `wrapper[key] = v`: on a forwarded name, the value goes to the core's store and log, and the wrapper keeps no copy. Otherwise a data property is created or overwritten. Either way the name then reads `v` and no other name changes. |
| Effects.LinkedAt | index.js:62-68 | After linking, each linked name is an accessor to the core, other properties are untouched, and no name is removed. |
| Effects.StoredAt | index.js:57 | Each sent name holds the value sent for it; other names keep their values. |
| Effects.TransfersAt | index.js:53-57 | Exactly one `set` call per sent name, in order, carrying its recorded value. |
| Effects.EffectsStep | index.js:53-57 | One more name is linked, stored and sent. |
| Effects.LinkedInStep | index.js:63 | After linking, the enumeration order and the own properties list the same names, with none twice. |
| Effects.Relinked | index.js:34-36 | Relinking names that are already linked to the same core changes nothing. |
| Effects.AdoptedAllForward | index.js:28-36 | After `useAsWrapper`, exactly the old own names and the extra names are properties, and every one forwards to the core. |
| SetGetWrapper.KeyList.IndexOf | index.js:50 | `indexOf` gives -1 exactly when the name is absent; otherwise it gives its first position. |
| SetGetWrapper.KeyList.Push | index.js:51 | `push` appends the name. |
| SetGetWrapper.LinkWrapperToCore | index.js:62-68 | The name becomes an accessor reading `core.get(key)`. A new name is appended to the enumeration order and an existing one keeps its place. Other names read as before, and the core is not called. |
| SetGetWrapper.ReadNow | index.js:53 | A name not yet migrated still reads what it read when `updateKeys` started. |
| SetGetWrapper.AdoptKey | index.js:51-57 | Adopting a name pushes it, links it, and sends the core the value it read before linking; afterwards the name still reads that value. |
| SetGetWrapper.MigrateKey | index.js:48-58 | A tracked name is skipped, with no relink and no `set`. Any other name is adopted. Either way the tracked list is the candidates seen so far, absorbed. |
| SetGetWrapper.Migrate | index.js:48-58 | The loop adds the untracked candidates in first-occurrence order. Each is pushed, linked and sent its starting value, exactly once and in that order. |
| SetGetWrapper.Track | index.js:43-58 | Tracked list, properties, store and log after the loop, as functions of the state before it. Every name reads as before. |
| SetGetWrapper.UpdateKeys | index.js:40-59 | An unregistered wrapper gets `TypeError('Argument must be an instance of SetGetWrapper')`, with nothing changed. Otherwise the candidates are `newKeys`, or `Object.keys(wrapper)` when it is omitted. They have the effect stated for `Track`, and every name reads as before. |
| SetGetWrapper.LinkAll | index.js:20-22 | Linking a list of names, duplicates included, makes each an accessor to the core, extends the order once per new name, keeps other reads, and never calls the core. |
| SetGetWrapper.Construct | index.js:11-23 | A new object is registered with the core and the caller's list itself, or a fresh empty list when it is omitted. Nothing is copied or deduplicated. Each listed name forwards to the core, nothing else is defined, and the core is untouched. |
| SetGetWrapper.AdoptOwn | index.js:32-36 | After registration: the names tracked beforehand are not sent and afterwards read the core's value. The other own names are sent once, in order, and keep their values. |
| SetGetWrapper.UseAsWrapper | index.js:26-37 | The object is registered, replacing any earlier entry, with the caller's `extraKeys` list, or a fresh empty one. The list grows by the untracked own names. Only those are sent to the core. Extra names read what the core held, other names keep their values, and every own and extra name forwards to the core. |
| Scenarios.WriteThroughAccessor | index.js:11-23 | `new SetGetWrapper(core, ['foo']); w.foo = 'bar'` stores `bar` in the core with one `set` call, reads it back, and keeps no local copy. |
| Scenarios.ConstructKeepsDuplicates | index.js:16-22 | The constructor keeps `['a', 'a']` as given, defines `a` once, and sends nothing. |
| Scenarios.UnregisteredRefused | index.js:42 | `updateKeys` on an unregistered object throws the `TypeError`; the object keeps its one data property `a`, which still reads 1. |
| Scenarios.AdoptExisting | index.js:26-37 | `useAsWrapper({x: 5, y: 9}, core, ['x'])` sends only `set('y', 9)`. The caller's list becomes `['x', 'y']`, `x` reads undefined, `y` reads 9, and both forward. |
| Scenarios.AdoptedTwo | index.js:48-51 | Two distinct untracked names are both appended, in order, and repeating them appends nothing. |
| Scenarios.SentTwo | index.js:53-57 | Migrating two names makes two `set` calls, in order. |
| Scenarios.AdoptedSecond | index.js:50-51 | With `x` tracked, `[x, y]` adopts `y` alone. |
| Scenarios.MigrateAB | index.js:40-59 | `updateKeys(w)` on `{a: 1, b: 2}` sends `set('a', 1)` then `set('b', 2)`, pushes both onto the caller's list, and keeps both values. |
| Scenarios.MigrateTwice | index.js:46-50 | A second `updateKeys(w)` finds both names tracked and sends nothing more. |

## Left out

- The weak-reference semantics of the `weak-map` registry (index.js:2, 5). The registry is an ordinary map keyed by object identity, and garbage collection is not modelled.
- The `new`-enforcement line (index.js:13). `Construct` models both call forms, which behave the same.
- Property-descriptor details beyond get/set forwarding:
  - every property is enumerable and configurable;
  - non-enumerable own properties, which `Object.keys` skips, are not represented;
  - non-configurable properties, on which `defineProperty` would throw, are not represented;
  - accessors installed by other code are not represented.
- Prototype-chain lookup. A name that is not an own property reads as undefined.
- The numeric-first ordering of `Object.keys`: JavaScript lists integer-like names first, in ascending order. The model uses insertion order for every name.
- The core's own behaviour. The core is a caller-supplied foreign object, modelled as a store that records its `set` calls. A core whose `get`/`set` compute something else, throw, or are missing is not modelled.
- Falsy non-array arguments such as `0` or `''` for `keys`, `extraKeys` or `newKeys` are treated like an omitted argument by `||`. The model distinguishes only an omitted list (null) from a `KeyList`. Array-likes other than arrays are not modelled.
- JavaScript values beyond undefined, integers and strings.
- UpdateKeys: the `TypeError` is returned as a `Status` rather than thrown. A caller in the model cannot observe a throw that unwinds further.
- Array.map over `newKeys` visits the elements present when the loop starts. The model takes a snapshot of them, which matches because the loop only appends to the tracked list.
- Tracked names and forwarded names can differ. The tracked list is the caller's array, shared by reference. Names pushed onto it through another wrapper that shares it, or by the caller, become tracked without being linked on this wrapper. A later `updateKeys` then skips them for good. The model states this behaviour; it adds no invariant tying the tracked list to the accessors.
- Non-string keys. Names are strings here. In JavaScript, `indexOf` (index.js:50) compares with strict equality, while `defineProperty` turns names into strings. So `new SetGetWrapper(core, [1])` followed by `updateKeys(w)` finds `'1'` missing from `[1]`. It pushes `'1'`, reads `core.get(1)`, relinks `'1'` and sends `set('1', …)`. The model does not capture this.
- Non-extensible wrappers. On an object made non-extensible (`Object.preventExtensions`), `defineProperty` throws at index.js:63 for a new name. By then the `push` at index.js:51 has already run, so the name stays tracked but is never linked. The model's objects are always extensible.
