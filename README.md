# Lazy symbol registry of two `langchain_core` packages

`langchain_core._api` and `langchain_core.messages` expose a flat public
namespace without importing the submodules behind it. Each package's
`__init__` holds three things:

- a registry from public name to owning submodule (`_dynamic_imports`,
  `_message_types`);
- a module-level `__getattr__`, which Python calls only for a name missing
  from the module's globals; it looks the name up, raises if it is
  unknown, imports the owner, reads the attribute of the same name from it,
  stores it in the globals and returns it;
- a `__dir__` that returns a copy of `__all__`.

This project models that mechanism in Dafny and proves what it promises.

- `PyDict` (py_dict.dfy) models a dict literal: keys are kept in insertion
  order, and a repeated key keeps its first position and its last value.
  This is what `list(_message_types.keys())` sees.
- `Resolution` (resolution.dfy) is the mechanism as functions of the
  namespace state. The state has three parts: the cache (the module's
  globals), the set of submodules already in `sys.modules`, and a load
  counter for each submodule. The parts are `ImportModule` (a loader that
  leaves an already loaded submodule alone), `GetAttrHook` (`__getattr__`),
  `Access` (the globals fast path, then the hook) and `Run` (a sequence of
  accesses). The lemmas cover the invariant `Valid`, cache monotonicity,
  idempotence, lazy loading, closure and loading each owner (its code run to completion) at most once.
- `Namespaces` (lazy_namespace.dfy) is the package module as an object.
  `class LazyNamespace` holds the globals, the loaded set and the counters
  as fields, and its methods update them in place. Each method is proved to
  produce exactly the result and the state of the matching `Resolution`
  function.
- `ApiPackage` (api_package.dfy) and `MessagesPackage`
  (messages_package.dfy) are the two concrete packages, with their tables
  written out. Their lemmas prove facts about these constants and instantiate
  the general lemmas for them.

The submodules are a parameter, `units: map<string, Submodule<V>>`:

- `Defines(attrs)` is a submodule whose code runs and leaves those
  attributes;
- `RaisesOnImport` is a submodule whose own code raises;
- an owner missing from the map cannot be found (`ModuleNotFound`).

Symbol values are an opaque type parameter `V`. The globals that a package
defines itself (`import_module`, `__all__`, `__getattr__`, ...) are a
parameter `initial`, which seeds the cache.

Two details of the code decide the error cases:

- An unknown name raises the package's own class: `ImportError` in
  `_api` and `AttributeError` in `messages`.
- When the owner lacks the attribute, `getattr` on the submodule raises its
  ordinary `AttributeError`, which the model calls `MissingAttribute`. It
  names the qualified submodule and the attribute.

In `_api`, the listing is a list maintained separately from the
registry. `ApiPackage.DeclaredMatchesRegistry` proves that the two agree.

## Model

| member | source | states |
|---|---|---|
| `PyDict.Insert` | libs/core/langchain_core/messages/__init__.py:22-55 | inserting a key sets its value; a new key goes to the end of the key order, an existing one keeps its place; well-formedness is kept |
| `PyDict.FromEntriesWellFormed` | libs/core/langchain_core/messages/__init__.py:22-57 | for any literal, the key order has no duplicates and lists exactly the dict's keys |
| `PyDict.FromEntriesOrder` | libs/core/langchain_core/messages/__init__.py:22-57 | a literal without repeated names has those names, in written order, as its key order |
| `PyDict.FromEntriesLookup` | libs/core/langchain_core/messages/__init__.py:22-55 | in a literal without repeated names, each name maps to the owner written beside it |
| `Resolution.Lookup` | libs/core/langchain_core/_api/__init__.py:63-64 | `registry.get(name)` gives an owner exactly for registered names, and it is that name's owner |
| `Resolution.ImportModule` | libs/core/langchain_core/_api/__init__.py:69 | import succeeds exactly for a loadable owner and returns its attributes; a second import runs no code; the first one raises only that owner's counter, by one; a missing or raising owner gives its error and changes nothing |
| `Resolution.GetAttrHook` | libs/core/langchain_core/_api/__init__.py:61-72 | unregistered: the namespace's error with its package and the name, state unchanged; success exactly when the owner defines the name, returning the owner's same-named attribute and adding only that cache entry; a failed import of the owner (not found, or its code raises) is passed to the caller as that error, with the whole state unchanged; an owner that imports stays in the loaded set even when it lacks the name, and the error then names the qualified owner; any error leaves the cache unchanged; the one import `__getattr__` makes can add only the name's owner to the loaded set, and only a newly loaded owner has its counter raised |
| `Resolution.Access` | libs/core/langchain_core/_api/__init__.py:61-72 | a name in the globals is returned from there with no state change; a success is cached under the name; existing entries are never removed or changed; at most the requested key is added |
| `Resolution.FreshValid` | libs/core/langchain_core/_api/__init__.py:12-58 | the package right after its own code ran is in a valid state with no submodule loaded |
| `Resolution.AccessPreservesValid` | libs/core/langchain_core/_api/__init__.py:61-72 | one attribute access keeps the cache consistent with the owners' attributes and every counter at one |
| `Resolution.RunPreservesValid` | libs/core/langchain_core/_api/__init__.py:61-72 | any sequence of accesses keeps the state valid |
| `Resolution.LoadsAtMostOnce` | libs/core/langchain_core/_api/__init__.py:69 | from a fresh package, no submodule is loaded (its code run to completion) more than once, whatever names are read |
| `Resolution.RunKeepsCache` | libs/core/langchain_core/_api/__init__.py:71 | a cached entry survives every later access with its value unchanged |
| `Resolution.ResolvedStaysResolved` | libs/core/langchain_core/_api/__init__.py:61-72 | after a successful access, any later access to the same name, after any other accesses, returns the same value and changes nothing |
| `Resolution.AccessIdempotent` | libs/core/langchain_core/_api/__init__.py:61-72 | a second access right after a successful one returns the same value and changes nothing |
| `Resolution.RunLoadsOnlyRequestedOwners` | libs/core/langchain_core/_api/__init__.py:63-69 | accesses never unload anything, and the imports `__getattr__` itself makes load only the owners of the registered names asked for |
| `Resolution.AccessClosure` | libs/core/langchain_core/_api/__init__.py:63-72 | for a name the package does not define itself: access succeeds exactly when the name is registered and its owner provides it, and it returns that attribute; an unregistered name fails with the namespace's error and no state change |
| `Resolution.RunResultsAgree` | libs/core/langchain_core/_api/__init__.py:61-72 | every access in a sequence answers like a single resolution: the owner's attribute, or an error exactly when the name cannot resolve |
| `Resolution.SharedOwnerLoadedOnce` | libs/core/langchain_core/_api/__init__.py:47-48 | once one name of an owner resolved, resolving another name of the same owner loads nothing and leaves the counter unchanged |
| `Namespaces.LazyNamespace.constructor` | libs/core/langchain_core/_api/__init__.py:12-58 | a new package object holds the given tables, its globals are its own definitions, nothing is loaded, and it is valid |
| `Namespaces.LazyNamespace.ImportModule` | libs/core/langchain_core/_api/__init__.py:69 | updates the loaded set and counters in place exactly as `Resolution.ImportModule` says and keeps the object valid |
| `Namespaces.LazyNamespace.GetAttrHook` | libs/core/langchain_core/messages/__init__.py:60-69 | `__getattr__` in place: result and new state are those of `Resolution.GetAttrHook`; on success the globals gain exactly the resolved entry, on error they are unchanged |
| `Namespaces.LazyNamespace.Get` | libs/core/langchain_core/_api/__init__.py:61-72 | an attribute read: result and new state are those of `Resolution.Access`; a global is returned without any change; a success leaves the value in the globals |
| `Namespaces.LazyNamespace.Dir` | libs/core/langchain_core/_api/__init__.py:75-76 | `__dir__` returns exactly the declared list, in order, and changes no state |
| `ApiPackage.EntryNames` | libs/core/langchain_core/_api/__init__.py:46-58 | the names of the `_dynamic_imports` literal, in written order |
| `ApiPackage.EntryNamesDistinct` | libs/core/langchain_core/_api/__init__.py:46-58 | the `_dynamic_imports` literal repeats no name |
| `ApiPackage.AllDistinct` | libs/core/langchain_core/_api/__init__.py:31-43 | `__all__` has eleven distinct names |
| `ApiPackage.RegistryKeys` | libs/core/langchain_core/_api/__init__.py:46-58 | the registry's keys are exactly the names written in the literal |
| `ApiPackage.SameNames` | libs/core/langchain_core/_api/__init__.py:31-58 | `__all__` and the literal list the same names |
| `ApiPackage.DeclaredMatchesRegistry` | libs/core/langchain_core/_api/__init__.py:31-58 | the separately kept `__all__` has eleven distinct names and they are exactly the keys of `_dynamic_imports` |
| `ApiPackage.PathHelpersShareOwner` | libs/core/langchain_core/_api/__init__.py:47-48 | `as_import_path` and `get_relative_path` are both owned by `path` |
| `ApiPackage.UnknownNameRaisesImportError` | libs/core/langchain_core/_api/__init__.py:63-67 | a name outside `__all__` and outside the globals raises `ImportError` carrying the name and `langchain_core._api`, with no state change |
| `ApiPackage.PathLoadedOnce` | libs/core/langchain_core/_api/__init__.py:47-48 | reading `as_import_path` loads `path` (its code run to completion) at most once, and exactly once if it succeeds; reading `get_relative_path` next keeps that counter at one |
| `ApiPackage.ReadPathHelpers` | libs/core/langchain_core/_api/__init__.py:61-72 | a caller reading both path helpers from a new package object gets each exactly when `path` provides it, and then it is `path`'s same-named attribute; `path` is loaded at most once, exactly once when the first read succeeds |
| `MessagesPackage.EntryNames` | libs/core/langchain_core/messages/__init__.py:22-55 | the names of the `_message_types` literal, in written order |
| `MessagesPackage.WrittenNamesDistinct` | libs/core/langchain_core/messages/__init__.py:22-55 | those are 32 distinct names |
| `MessagesPackage.DeclaredIsRegistryKeys` | libs/core/langchain_core/messages/__init__.py:22-57 | `__all__` is the registry's keys in written order: 32 distinct names, exactly the registered ones |
| `MessagesPackage.OwnerAsWritten` | libs/core/langchain_core/messages/__init__.py:22-55 | each name of the literal maps to the owner written beside it |
| `MessagesPackage.Closure` | libs/core/langchain_core/messages/__init__.py:61-69 | a name outside `__all__` and the globals raises `AttributeError` carrying the name and `langchain_core.messages`, with no state change; success exactly for a registered name whose owner provides it, with the owner's attribute; `_message_from_dict` is registered, owned by `utils` |
| `MessagesPackage.ToolNamesLoadOnce` | libs/core/langchain_core/messages/__init__.py:36-40 | the five names are owned by `tool`; reading all five from a new package loads `tool` (its code run to completion) at most once, and each read returns `tool`'s same-named attribute when it has one |

## Left out

- The import system is not modelled. This covers resolving the relative
  name, the `sys.modules` table and running a submodule's file. A loader
  over the `units` table stands in for it.
- In Python, importing a submodule also binds it as an attribute of its
  package, so `globals()['path']` appears after the first load of `path`.
  The model does not add that entry. "Only the requested entry is added"
  concerns the writes that `__getattr__` makes.
- A submodule's own code may import its sibling submodules, which then
  appear in `sys.modules` too. The model's loader loads only the owner it
  is asked for, so "only the requested owners become loaded" concerns the
  imports that `__getattr__` itself makes.
- When a submodule's import raises, Python discards the partly run module,
  and a later access imports it again. The model leaves the state
  unchanged on such a failure. Its counters count only completed runs.
- The `TYPE_CHECKING` import block (`_api/__init__.py:15-29`) never runs, and
  it is not modelled.
- What the symbols are (message classes, decorators, warning classes, path
  helpers) is not modelled. They are the opaque type `V`.
- Exception messages are not formatted. Errors are a datatype that carries
  the exception class, the package or submodule name, and the attribute
  name.
- `from package import name` turns an `AttributeError` from `__getattr__`
  into an `ImportError`. This is not modelled: the model covers attribute
  access only.
- Thread races on `globals()` are not modelled. Resolution is sequential.
- A submodule that defines its own `__getattr__` is not modelled. Each
  submodule's attributes are a fixed map.
- `Dir` returns an immutable sequence, so mutating a copy of `list(__all__)`
  has nothing to model.
