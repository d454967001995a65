/**
 * The inline part of redex's `ConfigFiles` (libredex/ConfigFiles.h): the
 * pipeline-wide configuration record with its lazily loaded caches, the
 * class-list queries, the deprecated moved-methods side table and `metafile`.
 *
 * Every non-const member that may throw is modelled as a pure function from
 * the state before the call to an `Answer` holding the state after it and the
 * value returned or the exception thrown (for the `void`
 * `ensure_class_lists_loaded`, only the exception). The const members are
 * plain functions of the state, and `AddMovedMethods`, which returns nothing,
 * maps the state before the call to the state after it. The private loaders,
 * whose bodies live in code outside this model, are oracles: `Loaders` says
 * what the k-th invocation of each loader yields or throws, and `LoadCounts`
 * records how many invocations happened. An exception a loader throws propagates out of the member, and
 * the state after the call is whatever the member had done before the throw.
 */
module Config {
  import opened Wrappers

  /** A `DexString*`: an interned string, compared by its address only. */
  datatype DexString = DexString(address: nat)

  /** A `DexClass*`: a class, compared by its address only. */
  datatype DexClass = DexClass(address: nat)

  /** Class name, method name and signature of a method that was moved. */
  type MethodTuple = (DexString, DexString, DexString)

  /** Original method identity to the class that now owns the method. */
  type MethodMap = map<MethodTuple, DexClass>

  /** Named lists of class or method names, in file order. */
  type ClassLists = map<string, seq<string>>

  /**
   * The inliner's tunable knobs. Their names and defaults are declared outside
   * this model, so a config is a map from knob name to the value that
   * overrides the engineering default; a default-constructed config has none.
   */
  datatype InlinerConfig = InlinerConfig(overrides: map<string, int>)

  /** What `std::make_unique<inliner::InlinerConfig>()` produces. */
  function DefaultInlinerConfig(): InlinerConfig
  {
    InlinerConfig(map[])
  }

  /** An exception thrown by one of the private loaders. */
  datatype LoadFailure = LoadFailure(reason: string)

  /**
   * What one `load_inliner_config` leaves in the config it was handed, and
   * the exception it threw, if any. The config is written through a pointer,
   * so a throw may leave it partly updated.
   */
  datatype InlinerLoad = InlinerLoad(config: InlinerConfig, thrown: Option<LoadFailure>)

  /**
   * The private loaders as oracles. Each is indexed by how many times that
   * loader ran before, so a loader may yield different results on different
   * invocations, and may throw. `inlinerConfig(k)` is what the k-th
   * `load_inliner_config` does to the config it is handed, whichever section
   * of the JSON config it reads. A loader is assumed to write no field of
   * the object other than through what it returns or the config it is handed.
   */
  datatype Loaders = Loaders(
    coldstartClasses: nat -> Result<seq<string>, LoadFailure>,
    coldstartMethods: nat -> Result<seq<string>, LoadFailure>,
    classLists: nat -> Result<ClassLists, LoadFailure>,
    inlinerConfig: nat -> InlinerConfig -> InlinerLoad)

  /** How many times each loader has been invoked on this object. */
  datatype LoadCounts = LoadCounts(
    coldstartClasses: nat,
    coldstartMethods: nat,
    classLists: nat,
    inlinerConfig: nat)

  /**
   * The fields of `ConfigFiles` that the inline members read or write, plus
   * the load counters. `inlinerConfig` is `None` exactly when the C++
   * `unique_ptr` is null.
   */
  datatype ConfigFiles = ConfigFiles(
    outdir: string,
    moveMap: bool,
    loadClassListsAttempted: bool,
    movedMethodsMap: MethodMap,
    coldstartClasses: seq<string>,
    coldstartMethods: seq<string>,
    classLists: ClassLists,
    inlinerConfig: Option<InlinerConfig>,
    loads: LoadCounts)

  /** The state of the object after a member call, and what the call returned. */
  datatype Answer<+T> = Answer(state: ConfigFiles, value: T)

  /**
   * An exception leaving a member: one a loader threw, or the
   * `std::out_of_range` that `std::unordered_map::at` throws for a key it
   * does not hold.
   */
  datatype ConfigError = LoaderThrew(failure: LoadFailure) | OutOfRange(name: string)

  /** A loader's outcome as it leaves the member that called the loader. */
  function Rethrow<T>(res: Result<T, LoadFailure>): Result<T, ConfigError>
  {
    match res
    case Success(v) => Success(v)
    case Failure(f) => Failure(LoaderThrew(f))
  }

  // ---------------------------------------------------------------------
  // Frames: which fields a member may change. Each says `after` equals
  // `before` except in the named fields.

  predicate OnlyColdstartClassesChanged(before: ConfigFiles, after: ConfigFiles)
  {
    after == before.(coldstartClasses := after.coldstartClasses,
                     loads := before.loads.(coldstartClasses := after.loads.coldstartClasses))
  }

  predicate OnlyColdstartMethodsChanged(before: ConfigFiles, after: ConfigFiles)
  {
    after == before.(coldstartMethods := after.coldstartMethods,
                     loads := before.loads.(coldstartMethods := after.loads.coldstartMethods))
  }

  predicate OnlyClassListsChanged(before: ConfigFiles, after: ConfigFiles)
  {
    after == before.(loadClassListsAttempted := after.loadClassListsAttempted,
                     classLists := after.classLists,
                     loads := before.loads.(classLists := after.loads.classLists))
  }

  predicate OnlyMovedMethodsChanged(before: ConfigFiles, after: ConfigFiles)
  {
    after == before.(moveMap := after.moveMap, movedMethodsMap := after.movedMethodsMap)
  }

  predicate OnlyInlinerConfigChanged(before: ConfigFiles, after: ConfigFiles)
  {
    after == before.(inlinerConfig := after.inlinerConfig,
                     loads := before.loads.(inlinerConfig := after.loads.inlinerConfig))
  }

  // ---------------------------------------------------------------------
  // Construction

  /**
   * The object right after construction, as far as the in-class field
   * initialisers and the default-constructed members determine it. What the
   * constructors themselves read from the JSON document is outside the model.
   */
  function NewConfigFiles(outdir: string): (c: ConfigFiles)
    ensures c.outdir == outdir
    ensures !c.moveMap && c.movedMethodsMap == map[]
    ensures !c.loadClassListsAttempted && c.classLists == map[]
    ensures c.inlinerConfig == None
    ensures c.coldstartClasses == [] && c.coldstartMethods == []
    ensures c.loads == LoadCounts(0, 0, 0, 0)
  {
    ConfigFiles(outdir, false, false, map[], [], [], map[], None, LoadCounts(0, 0, 0, 0))
  }

  // ---------------------------------------------------------------------
  // Coldstart lists: reloaded whenever the cached sequence is empty.

  /**
   * One emptiness-guarded cache access: when `cache` is empty, run the loader
   * and keep what it yields; a throw leaves the cache as it was.
   */
  function ReloadIfEmpty(cache: seq<string>, count: nat, loader: nat -> Result<seq<string>, LoadFailure>)
    : (seq<string>, nat, Result<seq<string>, ConfigError>)
  {
    if |cache| == 0 then
      var res := loader(count);
      (ValueOr(res, cache), count + 1, Rethrow(res))
    else
      (cache, count, Success(cache))
  }

  /**
   * `get_coldstart_classes`: the loader runs iff the cache is empty. A
   * successful call returns the cache as it now stands; a throwing load
   * leaves it empty, so the next call loads again.
   */
  function GetColdstartClasses(c: ConfigFiles, ld: Loaders): (r: Answer<Result<seq<string>, ConfigError>>)
    ensures r.value.Success? ==> r.value.value == r.state.coldstartClasses
    ensures |c.coldstartClasses| == 0 <==> r.state.loads.coldstartClasses == c.loads.coldstartClasses + 1
    ensures |c.coldstartClasses| == 0 ==>
              && r.value == Rethrow(ld.coldstartClasses(c.loads.coldstartClasses))
              && r.state.coldstartClasses == ValueOr(ld.coldstartClasses(c.loads.coldstartClasses), [])
    ensures |c.coldstartClasses| != 0 ==> r.state == c && r.value == Success(c.coldstartClasses)
    ensures OnlyColdstartClassesChanged(c, r.state)
  {
    var (cache, count, res) := ReloadIfEmpty(c.coldstartClasses, c.loads.coldstartClasses, ld.coldstartClasses);
    var c' := c.(coldstartClasses := cache, loads := c.loads.(coldstartClasses := count));
    Answer(c', res)
  }

  /** `get_coldstart_methods`: the same emptiness-guarded cache for methods. */
  function GetColdstartMethods(c: ConfigFiles, ld: Loaders): (r: Answer<Result<seq<string>, ConfigError>>)
    ensures r.value.Success? ==> r.value.value == r.state.coldstartMethods
    ensures |c.coldstartMethods| == 0 <==> r.state.loads.coldstartMethods == c.loads.coldstartMethods + 1
    ensures |c.coldstartMethods| == 0 ==>
              && r.value == Rethrow(ld.coldstartMethods(c.loads.coldstartMethods))
              && r.state.coldstartMethods == ValueOr(ld.coldstartMethods(c.loads.coldstartMethods), [])
    ensures |c.coldstartMethods| != 0 ==> r.state == c && r.value == Success(c.coldstartMethods)
    ensures OnlyColdstartMethodsChanged(c, r.state)
  {
    var (cache, count, res) := ReloadIfEmpty(c.coldstartMethods, c.loads.coldstartMethods, ld.coldstartMethods);
    var c' := c.(coldstartMethods := cache, loads := c.loads.(coldstartMethods := count));
    Answer(c', res)
  }

  // ---------------------------------------------------------------------
  // Named class lists: loaded at most once, guarded by an explicit flag.

  /**
   * `ensure_class_lists_loaded`: the first call sets the attempted flag and
   * then loads; every later call is a no-op. The value is the exception the
   * load threw, if any. Because the flag is set before the load, a throwing
   * load leaves the lists as they were and is never retried.
   */
  function EnsureClassListsLoaded(c: ConfigFiles, ld: Loaders): (r: Answer<Option<ConfigError>>)
    ensures r.state.loadClassListsAttempted
    ensures !c.loadClassListsAttempted <==> r.state.loads.classLists == c.loads.classLists + 1
    ensures !c.loadClassListsAttempted ==>
              && r.state.classLists == ValueOr(ld.classLists(c.loads.classLists), c.classLists)
              && (r.value.Some? <==> ld.classLists(c.loads.classLists).Failure?)
              && (r.value.Some? ==> r.value.value == LoaderThrew(ld.classLists(c.loads.classLists).error))
    ensures c.loadClassListsAttempted ==> r == Answer(c, None)
    ensures OnlyClassListsChanged(c, r.state)
  {
    if !c.loadClassListsAttempted then
      var flagged := c.(loadClassListsAttempted := true);
      var res := ld.classLists(c.loads.classLists);
      var c' := flagged.(classLists := ValueOr(res, flagged.classLists),
                         loads := c.loads.(classLists := c.loads.classLists + 1));
      match res
      case Success(_) => Answer(c', None)
      case Failure(f) => Answer(c', Some(LoaderThrew(f)))
    else
      Answer(c, None)
  }

  /** `get_all_class_lists`: the lists in force after the one-time load. */
  function GetAllClassLists(c: ConfigFiles, ld: Loaders): (r: Answer<Result<ClassLists, ConfigError>>)
    ensures r.state == EnsureClassListsLoaded(c, ld).state
    ensures !c.loadClassListsAttempted ==> r.value == Rethrow(ld.classLists(c.loads.classLists))
    ensures c.loadClassListsAttempted ==> r.value == Success(c.classLists)
  {
    var e := EnsureClassListsLoaded(c, ld);
    match e.value
    case Some(err) => Answer(e.state, Failure(err))
    case None => Answer(e.state, Success(e.state.classLists))
  }

  /** `has_class_list`: a membership test on the loaded lists. */
  function HasClassList(c: ConfigFiles, ld: Loaders, name: string): (r: Answer<Result<bool, ConfigError>>)
    ensures r.state == EnsureClassListsLoaded(c, ld).state
    ensures r.value.Success? ==> (r.value.value <==> name in r.state.classLists)
    ensures r.value.Failure? <==> EnsureClassListsLoaded(c, ld).value.Some?
    ensures r.value.Failure? ==> r.value.error == EnsureClassListsLoaded(c, ld).value.value
    ensures !c.loadClassListsAttempted && ld.classLists(c.loads.classLists).Success? ==>
              r.value == Success(name in ld.classLists(c.loads.classLists).value)
    ensures c.loadClassListsAttempted ==> r.value == Success(name in c.classLists)
  {
    var e := EnsureClassListsLoaded(c, ld);
    match e.value
    case Some(err) => Answer(e.state, Failure(err))
    case None => Answer(e.state, Success(name in e.state.classLists))
  }

  /**
   * `get_class_list`: `std::unordered_map::at` on the loaded lists, which throws
   * `std::out_of_range` for an unknown name; the one-time load has happened
   * by then either way, and an exception from that load propagates first.
   */
  function GetClassList(c: ConfigFiles, ld: Loaders, name: string): (r: Answer<Result<seq<string>, ConfigError>>)
    ensures r.state == EnsureClassListsLoaded(c, ld).state
    ensures EnsureClassListsLoaded(c, ld).value.Some? ==> r.value == Failure(EnsureClassListsLoaded(c, ld).value.value)
    ensures EnsureClassListsLoaded(c, ld).value.None? ==>
              && (r.value.Success? <==> name in r.state.classLists)
              && (r.value.Success? ==> r.value.value == r.state.classLists[name])
              && (r.value.Failure? ==> r.value.error == OutOfRange(name))
  {
    var e := EnsureClassListsLoaded(c, ld);
    match e.value
    case Some(err) => Answer(e.state, Failure(err))
    case None =>
      if name in e.state.classLists then Answer(e.state, Success(e.state.classLists[name]))
      else Answer(e.state, Failure(OutOfRange(name)))
  }

  // ---------------------------------------------------------------------
  // The deprecated moved-methods side table.

  /** `save_move_map`: whether any moved method was recorded. */
  function SaveMoveMap(c: ConfigFiles): bool
  {
    c.moveMap
  }

  /** `get_moved_methods_map`: the recorded moves. */
  function GetMovedMethodsMap(c: ConfigFiles): MethodMap
  {
    c.movedMethodsMap
  }

  /** `add_moved_methods`: records that `mt` now lives in `cls`. */
  function AddMovedMethods(c: ConfigFiles, mt: MethodTuple, cls: DexClass): (r: ConfigFiles)
    ensures SaveMoveMap(r)
    ensures mt in GetMovedMethodsMap(r) && GetMovedMethodsMap(r)[mt] == cls
    ensures GetMovedMethodsMap(r).Keys == GetMovedMethodsMap(c).Keys + {mt}
    ensures forall k :: k in GetMovedMethodsMap(c) && k != mt ==> GetMovedMethodsMap(r)[k] == GetMovedMethodsMap(c)[k]
    ensures OnlyMovedMethodsChanged(c, r)
  {
    c.(moveMap := true, movedMethodsMap := c.movedMethodsMap[mt := cls])
  }

  // ---------------------------------------------------------------------
  // Metadata file names.

  /**
   * `metafile`: the empty basename yields the empty string; otherwise the
   * result is `outdir`, one `/`, then the basename, with no normalisation.
   */
  function Metafile(c: ConfigFiles, basename: string): (r: string)
    ensures |r| == 0 <==> |basename| == 0
    ensures |basename| != 0 ==> |r| == |c.outdir| + 1 + |basename|
    ensures |basename| != 0 ==> r[..|c.outdir|] == c.outdir
    ensures |basename| != 0 ==> r[|c.outdir|] == '/'
    ensures |basename| != 0 ==> r[|c.outdir| + 1..] == basename
  {
    if |basename| == 0 then "" else c.outdir + "/" + basename
  }

  /**
   * The basename a metafile path was composed from, if `path` starts with
   * `outdir` and a `/` and has something after them; the partner of `Metafile`.
   */
  function MetafileBasename(c: ConfigFiles, path: string): Option<string>
  {
    var n := |c.outdir|;
    if n + 1 < |path| && path[..n] == c.outdir && path[n] == '/' then Some(path[n + 1..])
    else None
  }

  // ---------------------------------------------------------------------
  // The inliner config: built once, guarded by a null pointer.

  /**
   * `get_inliner_config`: the first call installs a default config and then
   * loads into it. Because the config is installed first, a throwing load
   * still leaves a config (as the loader left it) that later calls return
   * without loading again.
   */
  function GetInlinerConfig(c: ConfigFiles, ld: Loaders): (r: Answer<Result<InlinerConfig, ConfigError>>)
    ensures r.state.inlinerConfig.Some?
    ensures r.value.Success? ==> r.state.inlinerConfig == Some(r.value.value)
    ensures c.inlinerConfig.None? <==> r.state.loads.inlinerConfig == c.loads.inlinerConfig + 1
    ensures c.inlinerConfig.None? ==>
              var load := ld.inlinerConfig(c.loads.inlinerConfig)(DefaultInlinerConfig());
              && r.state.inlinerConfig == Some(load.config)
              && (r.value.Failure? <==> load.thrown.Some?)
              && (r.value.Failure? ==> r.value.error == LoaderThrew(load.thrown.value))
    ensures c.inlinerConfig.Some? ==> r.state == c && r.value == Success(c.inlinerConfig.value)
    ensures OnlyInlinerConfigChanged(c, r.state)
  {
    match c.inlinerConfig
    case Some(cfg) => Answer(c, Success(cfg))
    case None =>
      var installed := c.(inlinerConfig := Some(DefaultInlinerConfig()));
      var load := ld.inlinerConfig(c.loads.inlinerConfig)(installed.inlinerConfig.value);
      var c' := installed.(inlinerConfig := Some(load.config),
                           loads := c.loads.(inlinerConfig := c.loads.inlinerConfig + 1));
      match load.thrown
      case None => Answer(c', Success(load.config))
      case Some(f) => Answer(c', Failure(LoaderThrew(f)))
  }
}
