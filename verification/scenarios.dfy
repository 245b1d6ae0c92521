/**
 What the forwarder does on concrete new objects, each stating what the
 caller observes afterwards.
 */
module Scenarios {
  import opened KeyOrder
  import opened Runtime
  import opened Effects
  import opened SetGetWrapper

  /** `w = new SetGetWrapper(core, ['foo']); w.foo = 'bar'`: the value goes to
      the core, reads back through the wrapper, and the wrapper keeps no copy
      of its own. */
  method WriteThroughAccessor() returns (read: Value, stored: Value, log: seq<SetCall>, local: bool)
    ensures read == Text("bar") && stored == Text("bar")
    ensures log == [SetCall("foo", Text("bar"))]
    ensures !local
  {
    var reg := new Registry();
    var core := new Core();
    var keys := new KeyList(["foo"]);
    var w := Construct(reg, core, keys);
    LinkedAt(map[], ["foo"], core, "foo");
    w.Assign("foo", Text("bar"));
    read := w.Read("foo");
    stored := core.Get("foo");
    log := core.log;
    local := w.slots["foo"].Data?;
  }

  /** The constructor keeps its list as given, duplicates included, defines
      each name once and sends nothing to the core. */
  method ConstructKeepsDuplicates() returns (tracked: seq<Key>, order: seq<Key>, log: seq<SetCall>)
    ensures tracked == ["a", "a"] && order == ["a"] && log == []
  {
    var reg := new Registry();
    var core := new Core();
    var keys := new KeyList(["a", "a"]);
    var w := Construct(reg, core, keys);
    tracked := reg.entries[w].keys.items;
    order := w.order;
    log := core.log;
    assert ["a", "a"][..1] == ["a"];
  }

  /** `updateKeys` on an object that was never registered throws. */
  method UnregisteredRefused() returns (status: Status, order: seq<Key>, slots: map<Key, Prop>, a: Value)
    ensures status == TypeError("Argument must be an instance of SetGetWrapper")
    ensures order == ["a"]
    ensures slots == map["a" := Data(Number(1))]
    ensures a == Number(1)
  {
    var reg := new Registry();
    var w := new Wrapper();
    w.Assign("a", Number(1));
    AbsorbOne([], "a");
    status := UpdateKeys(reg, w, null);
    order := w.order;
    slots := w.slots;
    a := w.Read("a");
  }

  /** The object literal `{x: 5, y: 9}`. */
  method ObjectXY() returns (w: Wrapper)
    ensures fresh(w) && w.Valid()
    ensures w.order == ["x", "y"]
    ensures w.slots == map["x" := Data(Number(5)), "y" := Data(Number(9))]
  {
    w := new Wrapper();
    w.Assign("x", Number(5));
    w.Assign("y", Number(9));
    AbsorbOne([], "x");
    AbsorbOne(["x"], "y");
  }

  /** `useAsWrapper({x: 5, y: 9}, core, ['x'])` on an empty core: `x` was
      tracked before the adoption, so its 5 is not sent and it now reads
      what the core holds (nothing); `y` is adopted, sent its 9 and still
      reads 9. Both forward to the core, and the caller's list has grown. */
  method AdoptExisting() returns (log: seq<SetCall>, tracked: seq<Key>, x: Value, y: Value, forwarded: bool)
    ensures log == [SetCall("y", Number(9))]
    ensures tracked == ["x", "y"]
    ensures x == Undefined && y == Number(9)
    ensures forwarded
  {
    var reg := new Registry();
    var core := new Core();
    var w := ObjectXY();
    var extra := new KeyList(["x"]);
    ghost var before := w.Snapshot();
    assert Lookup(before, "y") == Number(9);
    assert "x"[0] != "y"[0];
    AdoptedSecond("x", "y");
    assert Transfers(["y"], before) == [SetCall("y", Number(9))];
    UseAsWrapper(reg, w, core, extra);
    log := core.log;
    tracked := extra.items;
    x := w.Read("x");
    y := w.Read("y");
    forwarded := w.slots["x"] == Forward(core) && w.slots["y"] == Forward(core);
  }

  /** `w = new SetGetWrapper(core, list)` with an empty `list`, then
      `w.a = 1; w.b = 2`: the names are not tracked, so they become plain
      own data properties. */
  method RegisteredAB(reg: Registry, core: Core, list: KeyList) returns (w: Wrapper)
    requires list.items == [] && core.log == []
    modifies reg
    ensures fresh(w) && w.Valid()
    ensures w in reg.entries && reg.entries[w] == Entry(core, list)
    ensures w.order == ["a", "b"]
    ensures w.slots == map["a" := Data(Number(1)), "b" := Data(Number(2))]
    ensures list.items == [] && core.log == []
  {
    w := Construct(reg, core, list);
    w.Assign("a", Number(1));
    w.Assign("b", Number(2));
    AbsorbOne([], "a");
    AbsorbOne(["a"], "b");
  }

  /** Migrating two distinct names with nothing tracked appends both, in
      order; migrating them again appends nothing. */
  lemma AdoptedTwo(a: Key, b: Key)
    requires a != b
    ensures FirstOccurrences([], [a, b]) == [a, b]
    ensures Absorb([a, b], [a, b]) == [a, b]
  {
    assert [a, b][..1] == [a];
    assert FirstOccurrences([], [a]) == [a];
    AbsorbCovered([a, b], [a, b]);
  }

  /** Migrating two names sends each its recorded value, in order. */
  lemma SentTwo(a: Key, b: Key, before: map<Key, Value>)
    ensures Transfers([a, b], before) == [SetCall(a, Lookup(before, a)), SetCall(b, Lookup(before, b))]
  {
    assert [a, b][..1] == [a];
    assert Transfers([a], before) == [SetCall(a, Lookup(before, a))];
  }

  /** Migrating `[x, y]` when `x` is tracked adopts `y` alone. */
  lemma AdoptedSecond(x: Key, y: Key)
    requires x != y
    ensures FirstOccurrences([x], [x, y]) == [y]
  {
    assert [x, y][..1] == [x];
    assert FirstOccurrences([x], [x]) == [];
  }

  /** `updateKeys(w)` on the registered `{a: 1, b: 2}` sends `set('a', 1)`
      then `set('b', 2)`, in enumeration order, pushes both names onto the
      list `w` was registered with, and both still read as before. */
  method MigrateAB(reg: Registry, core: Core, list: KeyList, w: Wrapper)
    requires w.Valid() && w in reg.entries && reg.entries[w] == Entry(core, list)
    requires w.order == ["a", "b"]
    requires w.slots == map["a" := Data(Number(1)), "b" := Data(Number(2))]
    requires list.items == [] && core.log == []
    modifies w, list, core
    ensures w.Valid() && w.order == ["a", "b"]
    ensures list.items == ["a", "b"]
    ensures core.log == [SetCall("a", Number(1)), SetCall("b", Number(2))]
    ensures w.Read("a") == Number(1) && w.Read("b") == Number(2)
  {
    assert reg.Footprint(w) == {w, list, core};
    ghost var before := w.Snapshot();
    assert Lookup(before, "a") == Number(1) && Lookup(before, "b") == Number(2);
    assert "a"[0] != "b"[0];
    AdoptedTwo("a", "b");
    SentTwo("a", "b", before);
    var status := UpdateKeys(reg, w, null);
  }

  /** `w = new SetGetWrapper(core, list); w.a = 1; w.b = 2; updateKeys(w)`
      migrates both names through the caller's own `list` and leaves them
      reading as before; a second `updateKeys(w)` finds them tracked and
      sends nothing. */
  method MigrateTwice() returns (tracked: seq<Key>, first: seq<SetCall>, second: seq<SetCall>, a: Value, b: Value)
    ensures tracked == ["a", "b"]
    ensures first == [SetCall("a", Number(1)), SetCall("b", Number(2))]
    ensures second == first
    ensures a == Number(1) && b == Number(2)
  {
    var reg := new Registry();
    var core := new Core();
    var list := new KeyList([]);
    var w := RegisteredAB(reg, core, list);
    MigrateAB(reg, core, list, w);
    first := core.log;
    assert ["a", "b"][..1] == ["a"];
    assert FirstOccurrences(["a", "b"], ["a", "b"]) == [];
    var status := UpdateKeys(reg, w, null);
    second := core.log;
    tracked := list.items;
    a := w.Read("a");
    b := w.Read("b");
  }
}
