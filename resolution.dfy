/**
  The lazy symbol registry of a Python package namespace, as functions of the
  namespace's state. A package `__init__` holds a registry from public name to
  owning submodule, a module-level `__getattr__` that Python calls only for a
  name missing from the module's globals, and a `__dir__` listing hook.

  The state is what the mechanism mutates: the module globals (the cache), the
  set of submodules already loaded into `sys.modules`, and a per-submodule
  count of how often its code has run. The submodules themselves are a
  parameter: `Defines(attrs)` is a submodule whose code runs and leaves those
  attributes, `RaisesOnImport` one whose code raises, and an owner absent from
  the map is one that cannot be found.
 */
module Resolution {

  datatype Option<T> = None | Some(value: T)

  /** The Python exception class a namespace raises for an unknown name. */
  datatype ErrorKind = ImportError | AttributeError

  datatype Error =
      /** raised by `__getattr__` itself: the name is not in the registry */
    | UnknownName(kind: ErrorKind, namespace: string, name: string)
      /** `getattr(module, name)` on a loaded submodule that lacks the name */
    | MissingAttribute(moduleName: string, name: string)
      /** `import_module` found no such submodule */
    | ModuleNotFound(moduleName: string)
      /** the submodule's own code raised while it was being imported */
    | ImportFailed(moduleName: string)

  datatype Result<T> = Ok(value: T) | Err(error: Error)

  /** The static part of one namespace: its dotted package name, the registry
      (name to owner), the declared `__all__` and the error class it raises. */
  datatype Namespace = Namespace(
    pkgName: string,
    registry: map<string, string>,
    declared: seq<string>,
    missKind: ErrorKind)

  datatype Submodule<V> = Defines(attrs: map<string, V>) | RaisesOnImport

  datatype State<V> = State(cache: map<string, V>, loaded: set<string>, loads: map<string, nat>)

  /** `import_module(f".{owner}", package=pkgName)` imports this absolute name. */
  function Qualified(pkg: string, owner: string): (r: string)
    ensures |r| == |pkg| + 1 + |owner| && r[..|pkg|] == pkg && r[|pkg|] == '.'
  {
    pkg + "." + owner
  }

  /** How many times `owner` has been loaded, its code run to completion. */
  function LoadCount<V>(st: State<V>, owner: string): (r: nat)
    ensures r > 0 ==> owner in st.loads
  {
    if owner in st.loads then st.loads[owner] else 0
  }

  /** The state before any access: the globals the module defines itself,
      nothing loaded. */
  function Fresh<V>(initial: map<string, V>): (r: State<V>)
    ensures r.cache == initial && r.loaded == {}
  {
    State(initial, {}, map[])
  }

  /** `registry.get(name)` */
  function Lookup(ns: Namespace, name: string): (r: Option<string>)
    ensures r.Some? <==> name in ns.registry
    ensures r.Some? ==> r.value == ns.registry[name]
  {
    if name in ns.registry then Some(ns.registry[name]) else None
  }

  /** Resolution of `name` can succeed: it is registered, its owner imports,
      and the owner defines an attribute of exactly that name. */
  predicate Resolvable<V>(ns: Namespace, units: map<string, Submodule<V>>, name: string) {
    && name in ns.registry
    && ns.registry[name] in units
    && units[ns.registry[name]].Defines?
    && name in units[ns.registry[name]].attrs
  }

  /** The value resolution yields: the owner's attribute of the same name. */
  function Attr<V>(ns: Namespace, units: map<string, Submodule<V>>, name: string): (r: V)
    requires Resolvable(ns, units, name)
  {
    units[ns.registry[name]].attrs[name]
  }

  /** `import_module` of one owner: a submodule already in `sys.modules` is
      returned without running anything; otherwise its code runs once and it
      is recorded as loaded. A failed import leaves nothing behind. */
  function ImportModule<V>(ns: Namespace, units: map<string, Submodule<V>>, st: State<V>, owner: string)
    : (r: Result<(map<string, V>, State<V>)>)
    ensures r.Ok? <==> owner in units && units[owner].Defines?
    ensures r.Ok? ==> r.value.0 == units[owner].attrs
    ensures r.Ok? ==> r.value.1.cache == st.cache && r.value.1.loaded == st.loaded + {owner}
    ensures r.Ok? ==> LoadCount(r.value.1, owner) == LoadCount(st, owner) + (if owner in st.loaded then 0 else 1)
    ensures r.Ok? ==> forall o :: o != owner ==> LoadCount(r.value.1, o) == LoadCount(st, o)
    ensures owner !in units ==> r == Err(ModuleNotFound(Qualified(ns.pkgName, owner)))
    ensures owner in units && units[owner].RaisesOnImport? ==> r == Err(ImportFailed(Qualified(ns.pkgName, owner)))
  {
    if owner in units && units[owner].Defines? then
      if owner in st.loaded then Ok((units[owner].attrs, st))
      else
        var st' := st.(loaded := st.loaded + {owner}, loads := st.loads[owner := LoadCount(st, owner) + 1]);
        Ok((units[owner].attrs, st'))
    else if owner !in units then Err(ModuleNotFound(Qualified(ns.pkgName, owner)))
    else Err(ImportFailed(Qualified(ns.pkgName, owner)))
  }

  /** The module-level `__getattr__`: look the name up, import its owner, read
      the same-named attribute, store it in the globals and return it. */
  function GetAttrHook<V>(ns: Namespace, units: map<string, Submodule<V>>, st: State<V>, name: string)
    : (r: (Result<V>, State<V>))
    ensures name !in ns.registry ==> r == (Err(UnknownName(ns.missKind, ns.pkgName, name)), st)
    ensures r.0.Ok? <==> Resolvable(ns, units, name)
    ensures r.0.Ok? ==> r.0.value == Attr(ns, units, name) && r.1.cache == st.cache[name := r.0.value]
    ensures r.0.Err? ==> r.1.cache == st.cache
    ensures name in ns.registry && ns.registry[name] in units && units[ns.registry[name]].Defines?
              && name !in units[ns.registry[name]].attrs
            ==> r.0 == Err(MissingAttribute(Qualified(ns.pkgName, ns.registry[name]), name))
    ensures name in ns.registry && ns.registry[name] !in units
            ==> r == (Err(ModuleNotFound(Qualified(ns.pkgName, ns.registry[name]))), st)
    ensures name in ns.registry && ns.registry[name] in units && units[ns.registry[name]].RaisesOnImport?
            ==> r == (Err(ImportFailed(Qualified(ns.pkgName, ns.registry[name]))), st)
    ensures name in ns.registry ==> r.1.loaded <= st.loaded + {ns.registry[name]}
    ensures name in ns.registry && ns.registry[name] in units && units[ns.registry[name]].Defines?
            ==> ns.registry[name] in r.1.loaded
    ensures st.loaded <= r.1.loaded
    ensures forall o :: o !in st.loaded ==> LoadCount(r.1, o) == LoadCount(st, o) + (if o in r.1.loaded then 1 else 0)
    ensures forall o :: o in st.loaded ==> LoadCount(r.1, o) == LoadCount(st, o)
  {
    match Lookup(ns, name)
    case None => (Err(UnknownName(ns.missKind, ns.pkgName, name)), st)
    case Some(owner) =>
      match ImportModule(ns, units, st, owner)
      case Err(e) => (Err(e), st)
      case Ok((attrs, st')) =>
        if name in attrs then (Ok(attrs[name]), st'.(cache := st'.cache[name := attrs[name]]))
        else (Err(MissingAttribute(Qualified(ns.pkgName, owner), name)), st')
  }

  /** An attribute read `namespace.name`: the globals first (the fast path
      Python takes before it calls `__getattr__`), then the hook. */
  function Access<V>(ns: Namespace, units: map<string, Submodule<V>>, st: State<V>, name: string)
    : (r: (Result<V>, State<V>))
    ensures name in st.cache ==> r == (Ok(st.cache[name]), st)
    ensures r.0.Ok? ==> name in r.1.cache && r.1.cache[name] == r.0.value
    ensures r.0.Ok? ==> name in st.cache || Resolvable(ns, units, name)
    ensures name !in st.cache && name !in ns.registry ==> r == (Err(UnknownName(ns.missKind, ns.pkgName, name)), st)
    ensures forall n :: n in st.cache ==> n in r.1.cache && r.1.cache[n] == st.cache[n]
    ensures r.1.cache.Keys <= st.cache.Keys + {name}
  {
    if name in st.cache then (Ok(st.cache[name]), st)
    else GetAttrHook(ns, units, st, name)
  }

  /** The accesses a process makes to the namespace, one after the other. */
  function Run<V>(ns: Namespace, units: map<string, Submodule<V>>, st: State<V>, names: seq<string>)
    : (r: (seq<Result<V>>, State<V>))
    ensures |r.0| == |names|
    decreases |names|
  {
    if names == [] then ([], st)
    else
      var (x, st1) := Access(ns, units, st, names[0]);
      var (xs, st2) := Run(ns, units, st1, names[1..]);
      ([x] + xs, st2)
  }

  /** The owners of the registered names among `names`. */
  function OwnersOf(ns: Namespace, names: seq<string>): (r: set<string>)
    ensures forall n :: n in names && n in ns.registry ==> ns.registry[n] in r
  {
    set n | n in names && n in ns.registry :: ns.registry[n]
  }

  /** The cache holds, for each name, either what the module defined itself
      or the owner's same-named attribute; every loaded owner has run exactly
      once. */
  ghost predicate Valid<V>(ns: Namespace, units: map<string, Submodule<V>>, initial: map<string, V>, st: State<V>) {
    && (forall o :: o in st.loaded ==> o in units && units[o].Defines?)
    && st.loads.Keys == st.loaded
    && (forall o :: o in st.loads ==> st.loads[o] == 1)
    && (forall n :: n in st.cache ==>
          (n in initial && st.cache[n] == initial[n])
          || (Resolvable(ns, units, n) && ns.registry[n] in st.loaded && st.cache[n] == Attr(ns, units, n)))
  }

  lemma FreshValid<V>(ns: Namespace, units: map<string, Submodule<V>>, initial: map<string, V>)
    ensures Valid(ns, units, initial, Fresh(initial))
    ensures forall o :: LoadCount(Fresh(initial), o) == 0
  {
  }

  /** One access keeps the state valid. */
  lemma AccessPreservesValid<V>(ns: Namespace, units: map<string, Submodule<V>>, initial: map<string, V>,
                                st: State<V>, name: string)
    requires Valid(ns, units, initial, st)
    ensures Valid(ns, units, initial, Access(ns, units, st, name).1)
  {
  }

  /** Any sequence of accesses keeps the state valid. */
  lemma {:induction false} RunPreservesValid<V>(ns: Namespace, units: map<string, Submodule<V>>,
                                                initial: map<string, V>, st: State<V>, names: seq<string>)
    requires Valid(ns, units, initial, st)
    ensures Valid(ns, units, initial, Run(ns, units, st, names).1)
    decreases |names|
  {
    if names != [] {
      AccessPreservesValid(ns, units, initial, st, names[0]);
      RunPreservesValid(ns, units, initial, Access(ns, units, st, names[0]).1, names[1..]);
    }
  }

  /** However many names are accessed, in whatever order, no owner is loaded
      (its code run to completion) more than once. */
  lemma LoadsAtMostOnce<V>(ns: Namespace, units: map<string, Submodule<V>>, initial: map<string, V>,
                           names: seq<string>, owner: string)
    ensures LoadCount(Run(ns, units, Fresh(initial), names).1, owner) <= 1
  {
    FreshValid(ns, units, initial);
    RunPreservesValid(ns, units, initial, Fresh(initial), names);
  }

  /** Entries of the cache are never removed or overwritten, whatever is
      accessed afterwards. */
  lemma {:induction false} RunKeepsCache<V>(ns: Namespace, units: map<string, Submodule<V>>, st: State<V>,
                                            names: seq<string>, n: string)
    requires n in st.cache
    ensures n in Run(ns, units, st, names).1.cache
    ensures Run(ns, units, st, names).1.cache[n] == st.cache[n]
    decreases |names|
  {
    if names != [] {
      RunKeepsCache(ns, units, Access(ns, units, st, names[0]).1, names[1..], n);
    }
  }

  /** Once a name has been resolved, every later access to it takes the fast
      path: it returns the same value and loads nothing. */
  lemma ResolvedStaysResolved<V>(ns: Namespace, units: map<string, Submodule<V>>, st: State<V>,
                                 name: string, later: seq<string>)
    requires Access(ns, units, st, name).0.Ok?
    ensures var (r1, st1) := Access(ns, units, st, name);
            var st2 := Run(ns, units, st1, later).1;
            Access(ns, units, st2, name) == (r1, st2)
  {
    var (r1, st1) := Access(ns, units, st, name);
    RunKeepsCache(ns, units, st1, later, name);
  }

  /** Resolving a name twice in a row: the second access returns the same
      value and changes nothing. */
  lemma AccessIdempotent<V>(ns: Namespace, units: map<string, Submodule<V>>, st: State<V>, name: string)
    requires Access(ns, units, st, name).0.Ok?
    ensures var (r1, st1) := Access(ns, units, st, name);
            Access(ns, units, st1, name) == (r1, st1)
  {
  }

  /** Lazy loading: a sequence of accesses loads only owners of the
      registered names it asks for. */
  lemma {:induction false} RunLoadsOnlyRequestedOwners<V>(ns: Namespace, units: map<string, Submodule<V>>,
                                                          st: State<V>, names: seq<string>)
    ensures st.loaded <= Run(ns, units, st, names).1.loaded
    ensures Run(ns, units, st, names).1.loaded <= st.loaded + OwnersOf(ns, names)
    decreases |names|
  {
    if names != [] {
      var st1 := Access(ns, units, st, names[0]).1;
      RunLoadsOnlyRequestedOwners(ns, units, st1, names[1..]);
      assert OwnersOf(ns, names) == OwnersOf(ns, [names[0]]) + OwnersOf(ns, names[1..]) by {
        assert forall n :: n in names <==> n == names[0] || n in names[1..];
      }
    }
  }

  /** Closure and completeness: for a name the module does not define itself,
      access succeeds exactly when the name is registered and its owner
      provides it, yields the owner's attribute, and an unregistered name
      fails with the namespace's own error without touching the state. */
  lemma AccessClosure<V>(ns: Namespace, units: map<string, Submodule<V>>, initial: map<string, V>,
                         st: State<V>, name: string)
    requires Valid(ns, units, initial, st)
    requires name !in initial
    ensures Access(ns, units, st, name).0.Ok? <==> Resolvable(ns, units, name)
    ensures Access(ns, units, st, name).0.Ok? ==> Access(ns, units, st, name).0.value == Attr(ns, units, name)
    ensures name !in ns.registry ==>
              Access(ns, units, st, name) == (Err(UnknownName(ns.missKind, ns.pkgName, name)), st)
  {
  }

  /** Every access of a run made from a valid state answers for its name
      what a single resolution would: the owner's attribute, or an error
      exactly when the name cannot be resolved. */
  lemma {:induction false} RunResultsAgree<V>(ns: Namespace, units: map<string, Submodule<V>>,
                                              initial: map<string, V>, st: State<V>, names: seq<string>, i: nat)
    requires Valid(ns, units, initial, st)
    requires i < |names| && names[i] !in initial
    ensures Run(ns, units, st, names).0[i].Ok? <==> Resolvable(ns, units, names[i])
    ensures Run(ns, units, st, names).0[i].Ok? ==> Run(ns, units, st, names).0[i].value == Attr(ns, units, names[i])
    decreases |names|
  {
    if i == 0 {
      AccessClosure(ns, units, initial, st, names[0]);
    } else {
      var st1 := Access(ns, units, st, names[0]).1;
      AccessPreservesValid(ns, units, initial, st, names[0]);
      RunResultsAgree(ns, units, initial, st1, names[1..], i - 1);
    }
  }

  /** Names that share an owner need one load: once one of them resolved,
      resolving another loads nothing and runs no code. */
  lemma SharedOwnerLoadedOnce<V>(ns: Namespace, units: map<string, Submodule<V>>, initial: map<string, V>,
                                 st: State<V>, first: string, second: string)
    requires Valid(ns, units, initial, st)
    requires first !in initial
    requires first in ns.registry && second in ns.registry
    requires ns.registry[first] == ns.registry[second]
    requires Access(ns, units, st, first).0.Ok?
    ensures var st1 := Access(ns, units, st, first).1;
            var st2 := Access(ns, units, st1, second).1;
            && st2.loaded == st1.loaded
            && LoadCount(st2, ns.registry[first]) == LoadCount(st1, ns.registry[first])
  {
  }
}
