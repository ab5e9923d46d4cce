/**
  The `langchain_core._api` package: eleven helpers from three submodules,
  declared twice, once in a hand-written `__all__` and once in the
  `_dynamic_imports` registry. An unknown name raises `ImportError`.
 */
module ApiPackage {
  import opened PyDict
  import opened Resolution
  import opened Namespaces

  const PACKAGE: string := "langchain_core._api"

  /** `__all__`, as written. */
  const ALL: seq<string> := [
    "as_import_path",
    "beta",
    "deprecated",
    "get_relative_path",
    "LangChainBetaWarning",
    "LangChainDeprecationWarning",
    "suppress_langchain_beta_warning",
    "surface_langchain_beta_warnings",
    "suppress_langchain_deprecation_warning",
    "surface_langchain_deprecation_warnings",
    "warn_deprecated"
  ]

  /** The `_dynamic_imports` literal, entry by entry. */
  const DYNAMIC_IMPORT_ENTRIES: seq<(string, string)> := [
    ("as_import_path", "path"),
    ("get_relative_path", "path"),
    ("beta", "beta_decorator"),
    ("LangChainBetaWarning", "beta_decorator"),
    ("suppress_langchain_beta_warning", "beta_decorator"),
    ("surface_langchain_beta_warnings", "beta_decorator"),
    ("deprecated", "deprecation"),
    ("LangChainDeprecationWarning", "deprecation"),
    ("suppress_langchain_deprecation_warning", "deprecation"),
    ("surface_langchain_deprecation_warnings", "deprecation"),
    ("warn_deprecated", "deprecation")
  ]

  const DYNAMIC_IMPORTS: Dict := FromEntries(DYNAMIC_IMPORT_ENTRIES)

  const API: Namespace := Namespace(PACKAGE, DYNAMIC_IMPORTS.table, ALL, ImportError)

  /** The names of the `_dynamic_imports` literal in its own order (which
      differs from the order of `__all__`), written out so that the verifier
      compares the string literals themselves. */
  const DYNAMIC_IMPORT_ENTRIES_NAMES: seq<string> := [
    "as_import_path", "get_relative_path", "beta", "LangChainBetaWarning",
    "suppress_langchain_beta_warning", "surface_langchain_beta_warnings", "deprecated",
    "LangChainDeprecationWarning", "suppress_langchain_deprecation_warning",
    "surface_langchain_deprecation_warnings", "warn_deprecated"
  ]

  lemma EntryNames()
    ensures Names(DYNAMIC_IMPORT_ENTRIES) == DYNAMIC_IMPORT_ENTRIES_NAMES
  {
  }

  lemma EntryNamesDistinct()
    ensures NoDuplicates(DYNAMIC_IMPORT_ENTRIES_NAMES)
  {
  }

  lemma AllDistinct()
    ensures |ALL| == 11 && NoDuplicates(ALL)
  {
  }

  lemma RegistryKeys()
    ensures forall n :: n in API.registry <==> n in DYNAMIC_IMPORT_ENTRIES_NAMES
  {
    EntryNames();
    EntryNamesDistinct();
    FromEntriesOrder(DYNAMIC_IMPORT_ENTRIES);
    FromEntriesWellFormed(DYNAMIC_IMPORT_ENTRIES);
    assert API.registry == FromEntries(DYNAMIC_IMPORT_ENTRIES).table;
  }

  lemma SameNames()
    ensures forall n :: n in ALL <==> n in DYNAMIC_IMPORT_ENTRIES_NAMES
  {
  }

  /** The two separately maintained lists agree: `__all__` holds eleven
      distinct names and they are exactly the registry's keys. */
  lemma DeclaredMatchesRegistry()
    ensures |ALL| == 11 && NoDuplicates(ALL)
    ensures forall n :: n in ALL <==> n in API.registry
  {
    AllDistinct();
    RegistryKeys();
    SameNames();
  }

  /** `as_import_path` and `get_relative_path` both come from `path`. */
  lemma PathHelpersShareOwner()
    ensures "as_import_path" in API.registry && API.registry["as_import_path"] == "path"
    ensures "get_relative_path" in API.registry && API.registry["get_relative_path"] == "path"
  {
    EntryNames();
    EntryNamesDistinct();
    FromEntriesLookup(DYNAMIC_IMPORT_ENTRIES, 0);
    FromEntriesLookup(DYNAMIC_IMPORT_ENTRIES, 1);
  }

  /** A name outside `__all__` that is not already a global raises
      `ImportError` naming the name and `langchain_core._api`, and changes
      nothing. */
  lemma UnknownNameRaisesImportError<V>(units: map<string, Submodule<V>>, st: State<V>, name: string)
    requires name !in ALL && name !in st.cache
    ensures Access(API, units, st, name) == (Err(UnknownName(ImportError, "langchain_core._api", name)), st)
  {
    DeclaredMatchesRegistry();
  }

  /** Resolving `get_relative_path` after `as_import_path` does not run the
      code of `path` again: its load counter stays at one. */
  lemma PathLoadedOnce<V>(units: map<string, Submodule<V>>, initial: map<string, V>)
    requires "as_import_path" !in initial
    ensures var (r1, st1) := Access(API, units, Fresh(initial), "as_import_path");
            var st2 := Access(API, units, st1, "get_relative_path").1;
            && LoadCount(st1, "path") <= 1
            && (r1.Ok? ==> LoadCount(st1, "path") == 1 && LoadCount(st2, "path") == 1)
  {
    PathHelpersShareOwner();
    FreshValid(API, units, initial);
    AccessPreservesValid(API, units, initial, Fresh(initial), "as_import_path");
    var (r1, st1) := Access(API, units, Fresh(initial), "as_import_path");
    if r1.Ok? {
      SharedOwnerLoadedOnce(API, units, initial, Fresh(initial), "as_import_path", "get_relative_path");
    }
  }

  /** A fresh `langchain_core._api` package, and a caller that reads both path
      helpers from it: each read yields `path`'s same-named attribute when it
      succeeds, and `path` is loaded (its code run to completion) at most
      once, and exactly once when the first helper resolves. */
  method ReadPathHelpers<V>(units: map<string, Submodule<V>>, initial: map<string, V>)
    returns (first: Result<V>, second: Result<V>, pathLoads: nat)
    requires "as_import_path" !in initial && "get_relative_path" !in initial
    ensures first.Ok? <==> Resolvable(API, units, "as_import_path")
    ensures second.Ok? <==> Resolvable(API, units, "get_relative_path")
    ensures first.Ok? ==> Resolvable(API, units, "as_import_path") && first.value == Attr(API, units, "as_import_path")
    ensures second.Ok? ==> Resolvable(API, units, "get_relative_path") && second.value == Attr(API, units, "get_relative_path")
    ensures pathLoads <= 1
    ensures first.Ok? ==> pathLoads == 1
  {
    var pkg := new LazyNamespace(API, units, initial);
    first := pkg.Get("as_import_path");
    AccessClosure(API, units, initial, Fresh(initial), "as_import_path");
    PathLoadedOnce(units, initial);
    ghost var st1 := pkg.Snapshot();
    second := pkg.Get("get_relative_path");
    AccessClosure(API, units, initial, st1, "get_relative_path");
    pathLoads := LoadCount(pkg.Snapshot(), "path");
  }
}
