# ConfigFiles: lazy caches and side tables of redex's configuration record

This project models the inline members of redex's `ConfigFiles`. `ConfigFiles` is the
configuration object handed to every optimisation pass. The modelled members are:

- the two coldstart getters, which reload whenever their cached list is empty;
- the named class lists, loaded at most once behind the `m_load_class_lists_attempted` flag;
- `has_class_list` and `get_class_list`;
- the deprecated moved-methods table and its `m_move_map` flag;
- `metafile`;
- the inliner config, built once behind a null `unique_ptr`;
- the field initialisers.

The model is a pure state-transition system:

- `Config.ConfigFiles` is an immutable record of the fields these members touch.
- Each non-const C++ member except `add_moved_methods` becomes a function from the state
  before the call to an `Answer`. The `Answer` holds the state after the call and the
  value returned or the exception thrown. `ensure_class_lists_loaded` returns `void`, so
  its value is only the exception, if any.
- The const members `save_move_map`, `get_moved_methods_map` and `metafile` are plain
  functions of the state that return the value directly.
- `add_moved_methods` cannot throw and returns nothing, so `Config.AddMovedMethods`
  returns the new state directly.
- The private loaders (`load_coldstart_classes`, `load_coldstart_methods`,
  `load_class_lists`, `load_inliner_config`) have bodies outside this model. They are
  oracles (`Config.Loaders`): functions from "how many times this loader ran before" to
  what it yields or throws. A loader can therefore behave differently on each call.
- A loader's exception propagates out of the member that called it. The state after the
  throw is what the member had already done, in the header's order of steps:
  - `ensure_class_lists_loaded` sets the attempted flag before loading
    (ConfigFiles.h:89-90). A throwing load is therefore never retried, and the lists stay
    as they were.
  - `get_inliner_config` installs a default config before loading into it
    (ConfigFiles.h:163-164). After a throw, later calls return the config as the loader
    left it, without loading again.
  - The coldstart getters assign the cache only after the loader returns
    (ConfigFiles.h:75, 82). After a throw the cache is still empty, so the next call
    loads again.
- `Config.LoadCounts` records how often each loader ran. "At most once" and "reloads
  while empty" are stated exactly in terms of these counts.
- The counts are ordinary fields, not ghost fields. They exist only in the model.
- `DexString*` and `DexClass*` are modelled by their addresses (`DexString`, `DexClass`),
  so a `MethodTuple` is a triple compared by identity. `MethodMap` is a Dafny `map`.
- `std::unordered_map::at` throws `std::out_of_range` for an unknown name. `get_class_list`
  therefore returns a `Result`. Its failure is `OutOfRange(name)`. The one-time load
  has happened by then either way.

`ConfigTrace` runs any sequence of calls to the modelled inline members, including
`ensure_class_lists_loaded`. It states what holds over the object's lifetime, provided
no other member touches these fields in between (see "## Left out").
`ConfigTrace.RunAppend` shows that running two sequences one after the other is the
same as running them joined. The lifetime guarantees therefore also hold from any
point in the middle of a run.

The coldstart getters use emptiness as the "not yet loaded" test (`size() == 0`,
ConfigFiles.h:74, 81). The class lists use an explicit flag instead
(ConfigFiles.h:88). A coldstart load that yields an empty list is therefore repeated on
the next call. `ConfigProperties.ColdstartClassesReloadWhileEmpty` and
`ConfigTrace.ColdstartClassesLoads` state this behaviour.

## Model

| member | source | states |
|---|---|---|
| Config.NewConfigFiles | libredex/ConfigFiles.h:185-206 | A new object has the move flag false, an empty moved-methods map, the class-list attempted flag false, no inliner config, empty caches and no loads. |
| Config.GetColdstartClasses | libredex/ConfigFiles.h:73-78 | The loader runs exactly when the cached class list is empty. It then returns or rethrows the loader's outcome, and the cache becomes what the loader yielded, or stays empty if it threw. A non-empty cache is returned with no state change. A successful call returns the cache as it now stands. No other field changes. |
| Config.GetColdstartMethods | libredex/ConfigFiles.h:80-85 | The same guarantee for the coldstart method list and its loader. |
| Config.EnsureClassListsLoaded | libredex/ConfigFiles.h:87-92 | Afterwards the attempted flag is set. The loader ran exactly when the flag was clear. The lists are then its output, or unchanged if it threw, and the throw is reported. If the flag was already set, nothing changes and nothing is thrown. Only the class-list fields change. |
| Config.GetAllClassLists | libredex/ConfigFiles.h:94-97 | Performs the one-time load. On first use it returns the loader's lists or rethrows its exception. On an already-loaded object it returns the existing lists. |
| Config.HasClassList | libredex/ConfigFiles.h:99-102 | True iff the name is a key of the loaded lists; on first use, a key of the loader's output. It rethrows a failed first load. The only state change is the one-time load. |
| Config.GetClassList | libredex/ConfigFiles.h:104-107 | A failed first load is rethrown. Otherwise it succeeds iff the name is a key of the loaded lists, returning that list unchanged, and fails with OutOfRange(name) if not. The state change is the one-time load, including when it fails. |
| Config.SaveMoveMap | libredex/ConfigFiles.h:121 | Whether any moved method was recorded. ConfigTrace.SaveMoveMapRecordsAdds and ConfigTrace.FreshMoveTable prove it is true exactly when some add_moved_methods call happened. |
| Config.GetMovedMethodsMap | libredex/ConfigFiles.h:123-125 | The recorded moves. Config.AddMovedMethods, ConfigTrace.MovedMethodsMapHoldsLastOwner and ConfigTrace.FreshMoveTable prove it sends each method to the owner its last add_moved_methods recorded. |
| Config.AddMovedMethods | libredex/ConfigFiles.h:127-131 | Afterwards the move flag is true and the map sends the method to the new class. The key set grows by exactly that method, every other entry is unchanged, and no other field changes. |
| Config.Metafile | libredex/ConfigFiles.h:133-138 | The result is empty iff the basename is empty. Otherwise it is outdir, then one '/', then the basename, with nothing added or removed. |
| Config.GetInlinerConfig | libredex/ConfigFiles.h:156-167 | Afterwards a config is present. When absent, one loader call on the default config builds it, and it is kept even if the load threw; the throw is reported. When already present, it is returned with no state change. |
| ConfigProperties.MetafileRoundTrip | libredex/ConfigFiles.h:133-138 | A non-empty basename can be recovered from its metafile path. |
| ConfigProperties.MetafileBasenameInverse | libredex/ConfigFiles.h:133-138 | Every path the inverse accepts is the metafile of the non-empty basename it yields. |
| ConfigProperties.MetafileInjective | libredex/ConfigFiles.h:133-138 | Different basenames never give the same metafile path. |
| ConfigProperties.MetafileKeepsTrailingSlash | libredex/ConfigFiles.h:137 | A trailing '/' in outdir is not normalised: the path contains "//". |
| ConfigProperties.ColdstartClassesCachedOnceNonEmpty | libredex/ConfigFiles.h:73-78 | Once the cache holds a non-empty class list, the next call returns it with no state change and no load. |
| ConfigProperties.ColdstartClassesReloadWhileEmpty | libredex/ConfigFiles.h:74-76 | If the loader yields an empty list or throws, the next call loads again: two calls, two loads. |
| ConfigProperties.ColdstartMethodsCachedOnceNonEmpty | libredex/ConfigFiles.h:80-85 | The same caching guarantee for coldstart methods. |
| ConfigProperties.ColdstartMethodsReloadWhileEmpty | libredex/ConfigFiles.h:81-83 | The same reload-while-empty behaviour for coldstart methods. |
| ConfigProperties.EnsureClassListsLoadedIdempotent | libredex/ConfigFiles.h:87-92 | A second ensure changes nothing and throws nothing, and there is at most one load in total, whatever the loader did. |
| ConfigProperties.FailedClassListLoadNotRetried | libredex/ConfigFiles.h:87-102 | The flag is set before loading, so a class-list load that throws is reported once. Afterwards the lists are unchanged, and has_class_list answers from them without loading again. |
| ConfigProperties.HasClassListIffGetClassListSucceeds | libredex/ConfigFiles.h:99-107 | has_class_list returns true exactly when get_class_list returns a list. Both leave the same state, and has_class_list fails exactly when get_class_list rethrows a load failure. |
| ConfigProperties.FreshGetClassListReturnsLoadedList | libredex/ConfigFiles.h:104-107 | On a new object, get_class_list returns exactly the loaded list for a name the loader produced. It fails with OutOfRange for any other name and rethrows a failed load. In every case exactly one load happens. |
| ConfigProperties.AddMovedMethodsOverwrites | libredex/ConfigFiles.h:128-131 | A second add for the same method overwrites the first owner. |
| ConfigProperties.AddMovedMethodsIdempotent | libredex/ConfigFiles.h:128-131 | Repeating the same add changes nothing. |
| ConfigProperties.InlinerConfigCached | libredex/ConfigFiles.h:161-167 | The second get_inliner_config returns the config the first left, with no state change and no load, even if the first load threw. |
| ConfigTrace.ClassListsLoadedAtMostOnce | libredex/ConfigFiles.h:87-107 | Over any sequence of modelled calls, the class-list loader runs at most once. After the flag is set the lists never change. The lists in force are that load's output, even if empty, or the earlier lists if it threw. |
| ConfigTrace.InlinerConfigBuiltAtMostOnce | libredex/ConfigFiles.h:161-167 | Over any sequence of modelled calls, the inliner config is built at most once and never changes afterwards. It is the default config as the first load left it, whether or not that load threw. |
| ConfigTrace.ColdstartClassesLoads | libredex/ConfigFiles.h:73-78 | Over any sequence of modelled calls: loads never exceed the number of get_coldstart_classes calls; a non-empty cache is never reloaded or changed; while each load yields nothing or throws, every such call loads. |
| ConfigTrace.ColdstartMethodsLoads | libredex/ConfigFiles.h:80-85 | The same lifetime guarantee for coldstart methods. |
| ConfigTrace.ClassListsFixedOnceAttempted | libredex/ConfigFiles.h:87-92 | Once the attempted flag is set at any point of the object's life, no later sequence of modelled calls loads the class lists again or changes them. |
| ConfigTrace.ColdstartClassesFixedOnceNonEmpty | libredex/ConfigFiles.h:73-78 | Once the coldstart class cache is non-empty at any point, no later sequence of modelled calls reloads or changes it. |
| ConfigTrace.ColdstartMethodsFixedOnceNonEmpty | libredex/ConfigFiles.h:80-85 | Once the coldstart method cache is non-empty at any point, no later sequence of modelled calls reloads or changes it. |
| ConfigTrace.InlinerConfigFixedOnceBuilt | libredex/ConfigFiles.h:161-167 | Once the inliner config exists at any point, no later sequence of modelled calls rebuilds or changes it. |
| ConfigTrace.SaveMoveMapRecordsAdds | libredex/ConfigFiles.h:121-131 | After any sequence of modelled calls, save_move_map is true iff it was true before or some call was add_moved_methods. The flag is never reset. |
| ConfigTrace.MovedMethodsMapHoldsLastOwner | libredex/ConfigFiles.h:123-131 | Each method's entry is the owner its last add_moved_methods recorded. With no such call, the entry is what it was before. |
| ConfigTrace.MetafileStable | libredex/ConfigFiles.h:133-138 | No modelled member call changes outdir, so every metafile path stays the same. |
| ConfigTrace.FreshMoveTable | libredex/ConfigFiles.h:121-131 | From a new object, the move flag is set iff some call added a moved method. The map holds exactly the last owner recorded for each method. |

## Left out

- `JsonWrapper` and its typed `get` lookups: only declarations exist, over a JSON value type that is not part of this model.
- The bodies of `load_coldstart_classes`, `load_coldstart_methods`, `load_class_lists` and `load_inliner_config` are not in the header (ConfigFiles.h:178-183), so they are not part of this model. They appear only as the `Loaders` oracles, which may yield anything and may throw. How each loader finds and parses its input is therefore not modelled.
- Config.GetInlinerConfig: the lookup of the "inliner" section of the JSON config, with the "MethodInlinePass" section as the fallback (ConfigFiles.h:156-160), happens inside `load_inliner_config` and is not modelled. The `inlinerConfig` oracle stands for whatever that lookup yields.
- The four loaders are non-const private members (ConfigFiles.h:178-183), so their unseen bodies could write any field. The oracles model only what each loader returns, or, for `load_inliner_config`, what it leaves in the config it is handed. `Config.GetColdstartClasses`, `Config.GetColdstartMethods`, `Config.EnsureClassListsLoaded`, `Config.GetInlinerConfig` and every `ConfigTrace` lemma assume the loaders write no other field.
- `load_method_to_weight` and `load_method_sorting_whitelisted_substrings` (ConfigFiles.h:181-182), and with them `get_method_to_weight` and `get_method_sorting_whitelisted_substrings` (ConfigFiles.h:111-119): the getters are plain accessors of fields that those loaders fill. The loaders' bodies and call sites are not in the header, so they are not part of this model.
- `load(scope)` and `get_no_optimizations_annos`: declarations only, and they depend on scope and type resolution.
- The two constructors: their bodies, which read settings from the JSON document, are not part of this model. `NewConfigFiles` covers only the in-class initialisers, with `outdir` as a parameter.
- `get_outdir`, `get_proguard_map`, `get_printseeds`, `get_instruction_size_bitwidth_limit` and `get_json_config`: plain field getters, or getters of foreign types (`ProguardMap`, `JsonWrapper`). `m_instruction_size_bitwidth_limit` has no initialiser in the header.
- `InlinerConfig`: its fields and defaults are declared outside this model. It is represented as a map of overridden knobs; the default config has none.
- libredex/ProguardPrintConfiguration.h: only declarations of `show_configuration` and `show_keep`. The rule types and rendering logic are not part of this model, and `show_configuration` writes to a stream.
- Config.GetColdstartClasses, Config.GetColdstartMethods, Config.GetAllClassLists, Config.GetClassList and Config.GetInlinerConfig return equal values, not references to the same storage. Reference identity of returned containers is not modelled.
- `load(const Scope&)` (ConfigFiles.h:172) and `get_no_optimizations_annos()` (ConfigFiles.h:109) are non-const members whose bodies are not part of this model. The `ConfigTrace` lemmas cover only sequences of calls to the modelled inline members. They assume these two members leave the modelled fields alone.
- Concurrency, and the ordering of `std::map` keys by pointer value, are not modelled.
