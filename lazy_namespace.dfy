/**
  One package namespace as an object: its globals dictionary, the submodules
  already in `sys.modules` and their load counters are fields that attribute
  access updates in place. Each method is proved to leave exactly the state
  the functions of module Resolution describe.
 */
module Namespaces {
  import opened Resolution

  class LazyNamespace<V> {
    const ns: Namespace
    /** the package's submodules, as the import system would find them */
    const units: map<string, Submodule<V>>
    /** the globals the package's `__init__` defines itself */
    const initial: map<string, V>

    /** `globals()` of the package module */
    var globals: map<string, V>
    /** the package's submodules present in `sys.modules` */
    var loaded: set<string>
    /** how many times each submodule has been loaded (its code run to completion) */
    var loads: map<string, nat>

    function Snapshot(): (r: State<V>)
      reads this
    {
      State(globals, loaded, loads)
    }

    ghost predicate Valid()
      reads this
    {
      Resolution.Valid(ns, units, initial, Snapshot())
    }

    constructor (ns: Namespace, units: map<string, Submodule<V>>, initial: map<string, V>)
      ensures Valid()
      ensures this.ns == ns && this.units == units && this.initial == initial
      ensures Snapshot() == Fresh(initial)
    {
      this.ns := ns;
      this.units := units;
      this.initial := initial;
      globals := initial;
      loaded := {};
      loads := map[];
    }

    /** `import_module(f".{owner}", package=...)` */
    method ImportModule(owner: string) returns (r: Result<map<string, V>>)
      requires Valid()
      modifies this`loaded, this`loads
      ensures Valid()
      ensures var expected := Resolution.ImportModule(ns, units, old(Snapshot()), owner);
              && (expected.Ok? ==> r == Ok(expected.value.0) && Snapshot() == expected.value.1)
              && (expected.Err? ==> r == Err(expected.error) && Snapshot() == old(Snapshot()))
    {
      if owner in units && units[owner].Defines? {
        if owner !in loaded {
          var count := if owner in loads then loads[owner] else 0;
          loads := loads[owner := count + 1];
          loaded := loaded + {owner};
        }
        r := Ok(units[owner].attrs);
      } else if owner !in units {
        r := Err(ModuleNotFound(Qualified(ns.pkgName, owner)));
      } else {
        r := Err(ImportFailed(Qualified(ns.pkgName, owner)));
      }
    }

    /** The module-level `__getattr__(attr_name)`. */
    method GetAttrHook(name: string) returns (r: Result<V>)
      requires Valid()
      modifies this
      ensures Valid()
      ensures (r, Snapshot()) == Resolution.GetAttrHook(ns, units, old(Snapshot()), name)
      ensures r.Ok? ==> globals == old(globals)[name := r.value]
      ensures r.Err? ==> globals == old(globals)
    {
      var owner := Lookup(ns, name);
      if owner.None? {
        return Err(UnknownName(ns.missKind, ns.pkgName, name));
      }
      var m := ImportModule(owner.value);
      if m.Err? {
        return Err(m.error);
      }
      if name !in m.value {
        return Err(MissingAttribute(Qualified(ns.pkgName, owner.value), name));
      }
      var result := m.value[name];
      globals := globals[name := result];
      return Ok(result);
    }

    /** An attribute read `namespace.name`: the globals, then `__getattr__`. */
    method Get(name: string) returns (r: Result<V>)
      requires Valid()
      modifies this
      ensures Valid()
      ensures (r, Snapshot()) == Access(ns, units, old(Snapshot()), name)
      ensures name in old(globals) ==> r == Ok(old(globals)[name]) && Snapshot() == old(Snapshot())
      ensures r.Ok? ==> name in globals && globals[name] == r.value
    {
      if name in globals {
        return Ok(globals[name]);
      }
      r := GetAttrHook(name);
    }

    /** `__dir__()`: a copy of the declared `__all__`. */
    method Dir() returns (names: seq<string>)
      ensures names == ns.declared
    {
      names := ns.declared;
    }
  }
}
