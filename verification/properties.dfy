/**
 * Properties of single `ConfigFiles` members and of two calls in a row:
 * `metafile` and its inverse, the two caching disciplines, the class-list
 * queries and the moved-methods table.
 */
module ConfigProperties {
  import opened Wrappers
  import opened Config

  // ---------------------------------------------------------------------
  // metafile

  /** A non-empty basename is recovered from the composed path. */
  lemma MetafileRoundTrip(c: ConfigFiles, basename: string)
    requires |basename| != 0
    ensures MetafileBasename(c, Metafile(c, basename)) == Some(basename)
  {
  }

  /** Every path `MetafileBasename` accepts is the metafile of what it returns. */
  lemma MetafileBasenameInverse(c: ConfigFiles, path: string)
    ensures MetafileBasename(c, path).Some? ==>
              |MetafileBasename(c, path).value| != 0 && Metafile(c, MetafileBasename(c, path).value) == path
  {
  }

  /** Distinct basenames name distinct files. */
  lemma MetafileInjective(c: ConfigFiles, b1: string, b2: string)
    requires Metafile(c, b1) == Metafile(c, b2)
    ensures b1 == b2
  {
  }

  /** An `outdir` ending in `/` is not normalised: the path holds `//`. */
  lemma MetafileKeepsTrailingSlash(c: ConfigFiles, basename: string)
    requires |c.outdir| != 0 && c.outdir[|c.outdir| - 1] == '/'
    requires |basename| != 0
    ensures Metafile(c, basename)[|c.outdir| - 1..|c.outdir| + 1] == "//"
  {
  }

  // ---------------------------------------------------------------------
  // Coldstart lists

  /** Once the cache holds a non-empty list, the next call returns it again without loading. */
  lemma ColdstartClassesCachedOnceNonEmpty(c: ConfigFiles, ld: Loaders)
    requires |GetColdstartClasses(c, ld).state.coldstartClasses| != 0
    ensures var first := GetColdstartClasses(c, ld);
            GetColdstartClasses(first.state, ld) == Answer(first.state, Success(first.state.coldstartClasses))
  {
  }

  /** A load that yields nothing or throws leaves the cache empty, so the next call loads again. */
  lemma ColdstartClassesReloadWhileEmpty(c: ConfigFiles, ld: Loaders)
    requires |c.coldstartClasses| == 0
    requires |ValueOr(ld.coldstartClasses(c.loads.coldstartClasses), [])| == 0
    ensures var second := GetColdstartClasses(GetColdstartClasses(c, ld).state, ld);
            && second.state.loads.coldstartClasses == c.loads.coldstartClasses + 2
            && second.value == Rethrow(ld.coldstartClasses(c.loads.coldstartClasses + 1))
  {
  }

  /** Once the cache holds a non-empty list, the next call returns it again without loading. */
  lemma ColdstartMethodsCachedOnceNonEmpty(c: ConfigFiles, ld: Loaders)
    requires |GetColdstartMethods(c, ld).state.coldstartMethods| != 0
    ensures var first := GetColdstartMethods(c, ld);
            GetColdstartMethods(first.state, ld) == Answer(first.state, Success(first.state.coldstartMethods))
  {
  }

  /** A load that yields nothing or throws leaves the cache empty, so the next call loads again. */
  lemma ColdstartMethodsReloadWhileEmpty(c: ConfigFiles, ld: Loaders)
    requires |c.coldstartMethods| == 0
    requires |ValueOr(ld.coldstartMethods(c.loads.coldstartMethods), [])| == 0
    ensures var second := GetColdstartMethods(GetColdstartMethods(c, ld).state, ld);
            && second.state.loads.coldstartMethods == c.loads.coldstartMethods + 2
            && second.value == Rethrow(ld.coldstartMethods(c.loads.coldstartMethods + 1))
  {
  }

  // ---------------------------------------------------------------------
  // Class lists

  /** Loading twice is loading once, even when the loaded map is empty or the load threw. */
  lemma EnsureClassListsLoadedIdempotent(c: ConfigFiles, ld: Loaders)
    ensures var first := EnsureClassListsLoaded(c, ld);
            && EnsureClassListsLoaded(first.state, ld) == Answer(first.state, None)
            && first.state.loads.classLists <= c.loads.classLists + 1
  {
  }

  /**
   * A class-list load that throws is not retried: later queries see the lists
   * from before it and load nothing.
   */
  lemma FailedClassListLoadNotRetried(c: ConfigFiles, ld: Loaders, name: string)
    requires !c.loadClassListsAttempted
    requires ld.classLists(c.loads.classLists).Failure?
    ensures var first := EnsureClassListsLoaded(c, ld);
            && first.value == Some(LoaderThrew(ld.classLists(c.loads.classLists).error))
            && first.state.classLists == c.classLists
            && HasClassList(first.state, ld, name) == Answer(first.state, Success(name in c.classLists))
            && first.state.loads.classLists == c.loads.classLists + 1
  {
  }

  /**
   * `has_class_list` returns true exactly when `get_class_list` would return a
   * list; both leave the same state and both propagate the same load failure.
   */
  lemma HasClassListIffGetClassListSucceeds(c: ConfigFiles, ld: Loaders, name: string)
    ensures HasClassList(c, ld, name).value == Success(true) <==> GetClassList(c, ld, name).value.Success?
    ensures HasClassList(c, ld, name).state == GetClassList(c, ld, name).state
    ensures HasClassList(c, ld, name).value.Failure? <==>
              GetClassList(c, ld, name).value.Failure? && GetClassList(c, ld, name).value.error.LoaderThrew?
  {
  }

  /**
   * On a fresh object, `get_class_list` returns exactly the list the loader
   * produced under that name, fails with `OutOfRange` for every name the
   * loader did not produce, and rethrows a load failure.
   */
  lemma FreshGetClassListReturnsLoadedList(outdir: string, ld: Loaders, name: string)
    ensures var r := GetClassList(NewConfigFiles(outdir), ld, name);
            && (match ld.classLists(0)
                case Success(lists) =>
                  if name in lists then r.value == Success(lists[name]) else r.value == Failure(OutOfRange(name))
                case Failure(f) => r.value == Failure(LoaderThrew(f)))
            && r.state.loads.classLists == 1
  {
  }

  // ---------------------------------------------------------------------
  // Moved methods

  /** A later owner for the same method replaces the earlier one. */
  lemma AddMovedMethodsOverwrites(c: ConfigFiles, mt: MethodTuple, first: DexClass, second: DexClass)
    ensures AddMovedMethods(AddMovedMethods(c, mt, first), mt, second) == AddMovedMethods(c, mt, second)
  {
  }

  /** Adding the same entry again changes nothing. */
  lemma AddMovedMethodsIdempotent(c: ConfigFiles, mt: MethodTuple, cls: DexClass)
    ensures AddMovedMethods(AddMovedMethods(c, mt, cls), mt, cls) == AddMovedMethods(c, mt, cls)
  {
  }

  // ---------------------------------------------------------------------
  // Inliner config

  /**
   * The second call returns the config the first one left, without loading
   * again, even when the first call's load threw.
   */
  lemma InlinerConfigCached(c: ConfigFiles, ld: Loaders)
    ensures var first := GetInlinerConfig(c, ld);
            GetInlinerConfig(first.state, ld) == Answer(first.state, Success(first.state.inlinerConfig.value))
  {
  }
}
