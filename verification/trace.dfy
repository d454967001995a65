/**
 * Sequences of calls to the inline members of one `ConfigFiles` object.
 * These lemmas state the lifetime guarantees of the lazy caches and of the
 * moved-methods table: whatever order those members are called in, the class
 * lists and the inliner config are loaded at most once (even when that load
 * throws), a non-empty coldstart cache is never reloaded, and the move flag
 * and map record exactly the `add_moved_methods` calls made.
 */
module ConfigTrace {
  import opened Wrappers
  import opened Config

  /** One call of an inline member of `ConfigFiles`. */
  datatype Call =
    | ColdstartClassesCall
    | ColdstartMethodsCall
    | EnsureClassListsLoadedCall
    | AllClassListsCall
    | HasClassListCall(name: string)
    | ClassListCall(name: string)
    | SaveMoveMapCall
    | MovedMethodsMapCall
    | AddMovedMethodsCall(mt: MethodTuple, cls: DexClass)
    | MetafileCall(basename: string)
    | InlinerConfigCall

  /** The state of the object after `call`. */
  function After(c: ConfigFiles, ld: Loaders, call: Call): ConfigFiles
  {
    match call
    case ColdstartClassesCall => GetColdstartClasses(c, ld).state
    case ColdstartMethodsCall => GetColdstartMethods(c, ld).state
    case EnsureClassListsLoadedCall => EnsureClassListsLoaded(c, ld).state
    case AllClassListsCall => GetAllClassLists(c, ld).state
    case HasClassListCall(name) => HasClassList(c, ld, name).state
    case ClassListCall(name) => GetClassList(c, ld, name).state
    case SaveMoveMapCall => c
    case MovedMethodsMapCall => c
    case AddMovedMethodsCall(mt, cls) => AddMovedMethods(c, mt, cls)
    case MetafileCall(_) => c
    case InlinerConfigCall => GetInlinerConfig(c, ld).state
  }

  /** The state of the object after `calls`, made in order. */
  function Run(c: ConfigFiles, ld: Loaders, calls: seq<Call>): ConfigFiles
    decreases |calls|
  {
    if |calls| == 0 then c
    else After(Run(c, ld, calls[..|calls| - 1]), ld, calls[|calls| - 1])
  }

  /** How many of `calls` are `call`. */
  function Occurrences(calls: seq<Call>, call: Call): nat
    decreases |calls|
  {
    if |calls| == 0 then 0
    else Occurrences(calls[..|calls| - 1], call) + (if calls[|calls| - 1] == call then 1 else 0)
  }

  /** The owner the last `add_moved_methods` for `mt` in `calls` recorded, if any. */
  function LastOwner(calls: seq<Call>, mt: MethodTuple): Option<DexClass>
    decreases |calls|
  {
    if |calls| == 0 then None
    else match calls[|calls| - 1]
      case AddMovedMethodsCall(m, cls) => if m == mt then Some(cls) else LastOwner(calls[..|calls| - 1], mt)
      case _ => LastOwner(calls[..|calls| - 1], mt)
  }

  /**
   * The class-list loader runs at most once over the object's lifetime; once
   * the attempted flag is set the lists never change, and the lists in force
   * are the ones that single load produced, even if they are empty, or the
   * lists from before it if it threw.
   */
  lemma {:induction false} ClassListsLoadedAtMostOnce(c: ConfigFiles, ld: Loaders, calls: seq<Call>)
    ensures var r := Run(c, ld, calls);
            && r.loads.classLists <= c.loads.classLists + 1
            && (c.loadClassListsAttempted ==> r.loadClassListsAttempted)
            && (c.loadClassListsAttempted ==>
                  r.classLists == c.classLists && r.loads.classLists == c.loads.classLists)
            && (!r.loadClassListsAttempted ==>
                  r.classLists == c.classLists && r.loads.classLists == c.loads.classLists)
            && (!c.loadClassListsAttempted && r.loadClassListsAttempted ==>
                  r.classLists == ValueOr(ld.classLists(c.loads.classLists), c.classLists)
                  && r.loads.classLists == c.loads.classLists + 1)
    decreases |calls|
  {
    if |calls| != 0 {
      ClassListsLoadedAtMostOnce(c, ld, calls[..|calls| - 1]);
    }
  }

  /**
   * The inliner config is built at most once; once built it never changes,
   * and it is the default config as the first `load_inliner_config` left it,
   * whether or not that load threw.
   */
  lemma {:induction false} InlinerConfigBuiltAtMostOnce(c: ConfigFiles, ld: Loaders, calls: seq<Call>)
    ensures var r := Run(c, ld, calls);
            && r.loads.inlinerConfig <= c.loads.inlinerConfig + 1
            && (c.inlinerConfig.Some? ==>
                  r.inlinerConfig == c.inlinerConfig && r.loads.inlinerConfig == c.loads.inlinerConfig)
            && (r.inlinerConfig.None? ==>
                  c.inlinerConfig.None? && r.loads.inlinerConfig == c.loads.inlinerConfig)
            && (c.inlinerConfig.None? && r.inlinerConfig.Some? ==>
                  r.inlinerConfig == Some(ld.inlinerConfig(c.loads.inlinerConfig)(DefaultInlinerConfig()).config)
                  && r.loads.inlinerConfig == c.loads.inlinerConfig + 1)
    decreases |calls|
  {
    if |calls| != 0 {
      var before := Run(c, ld, calls[..|calls| - 1]);
      InlinerConfigBuiltAtMostOnce(c, ld, calls[..|calls| - 1]);
      if calls[|calls| - 1] != InlinerConfigCall {
        AfterKeepsInlinerConfig(before, ld, calls[|calls| - 1]);
      }
    }
  }

  /**
   * The coldstart class loader runs at most once per `get_coldstart_classes`
   * call, never once the cache is non-empty, and on every such call while
   * each load yields nothing or throws.
   */
  lemma {:induction false} ColdstartClassesLoads(c: ConfigFiles, ld: Loaders, calls: seq<Call>)
    ensures var r := Run(c, ld, calls);
            && c.loads.coldstartClasses <= r.loads.coldstartClasses
            && r.loads.coldstartClasses <= c.loads.coldstartClasses + Occurrences(calls, ColdstartClassesCall)
            && (|c.coldstartClasses| != 0 ==>
                  r.coldstartClasses == c.coldstartClasses && r.loads.coldstartClasses == c.loads.coldstartClasses)
            && ((|c.coldstartClasses| == 0 && forall k :: |ValueOr(ld.coldstartClasses(k), [])| == 0) ==>
                  |r.coldstartClasses| == 0
                  && r.loads.coldstartClasses == c.loads.coldstartClasses + Occurrences(calls, ColdstartClassesCall))
    decreases |calls|
  {
    if |calls| != 0 {
      var before := Run(c, ld, calls[..|calls| - 1]);
      ColdstartClassesLoads(c, ld, calls[..|calls| - 1]);
      if calls[|calls| - 1] != ColdstartClassesCall {
        AfterKeepsColdstartClasses(before, ld, calls[|calls| - 1]);
      }
    }
  }

  /**
   * The coldstart method loader runs at most once per `get_coldstart_methods`
   * call, never once the cache is non-empty, and on every such call while
   * each load yields nothing or throws.
   */
  lemma {:induction false} ColdstartMethodsLoads(c: ConfigFiles, ld: Loaders, calls: seq<Call>)
    ensures var r := Run(c, ld, calls);
            && c.loads.coldstartMethods <= r.loads.coldstartMethods
            && r.loads.coldstartMethods <= c.loads.coldstartMethods + Occurrences(calls, ColdstartMethodsCall)
            && (|c.coldstartMethods| != 0 ==>
                  r.coldstartMethods == c.coldstartMethods && r.loads.coldstartMethods == c.loads.coldstartMethods)
            && ((|c.coldstartMethods| == 0 && forall k :: |ValueOr(ld.coldstartMethods(k), [])| == 0) ==>
                  |r.coldstartMethods| == 0
                  && r.loads.coldstartMethods == c.loads.coldstartMethods + Occurrences(calls, ColdstartMethodsCall))
    decreases |calls|
  {
    if |calls| != 0 {
      var before := Run(c, ld, calls[..|calls| - 1]);
      ColdstartMethodsLoads(c, ld, calls[..|calls| - 1]);
      if calls[|calls| - 1] != ColdstartMethodsCall {
        AfterKeepsColdstartMethods(before, ld, calls[|calls| - 1]);
      }
    }
  }

  /** The move flag is set exactly when it was set before or some call added a moved method. */
  lemma {:induction false} SaveMoveMapRecordsAdds(c: ConfigFiles, ld: Loaders, calls: seq<Call>)
    ensures SaveMoveMap(Run(c, ld, calls)) <==>
              SaveMoveMap(c) || exists i :: 0 <= i < |calls| && calls[i].AddMovedMethodsCall?
    decreases |calls|
  {
    if |calls| != 0 {
      var prefix := calls[..|calls| - 1];
      SaveMoveMapRecordsAdds(c, ld, prefix);
      AfterMoveFlag(Run(c, ld, prefix), ld, calls[|calls| - 1]);
      if exists i :: 0 <= i < |prefix| && prefix[i].AddMovedMethodsCall? {
        var i :| 0 <= i < |prefix| && prefix[i].AddMovedMethodsCall?;
        assert calls[i].AddMovedMethodsCall?;
      }
      if exists i :: 0 <= i < |calls| && calls[i].AddMovedMethodsCall? {
        var i :| 0 <= i < |calls| && calls[i].AddMovedMethodsCall?;
        if i < |prefix| {
          assert prefix[i].AddMovedMethodsCall?;
        }
      }
    }
  }

  /**
   * Each method's entry in the moved-methods map is the owner the last
   * `add_moved_methods` for it recorded, or its entry before the calls if
   * there was none.
   */
  lemma {:induction false} MovedMethodsMapHoldsLastOwner(c: ConfigFiles, ld: Loaders, calls: seq<Call>, mt: MethodTuple)
    ensures Get(GetMovedMethodsMap(Run(c, ld, calls)), mt) ==
              (if LastOwner(calls, mt).Some? then LastOwner(calls, mt) else Get(GetMovedMethodsMap(c), mt))
    decreases |calls|
  {
    if |calls| != 0 {
      MovedMethodsMapHoldsLastOwner(c, ld, calls[..|calls| - 1], mt);
    }
  }

  /** The output directory never changes, so neither does any metafile path. */
  lemma {:induction false} MetafileStable(c: ConfigFiles, ld: Loaders, calls: seq<Call>, basename: string)
    ensures Metafile(Run(c, ld, calls), basename) == Metafile(c, basename)
    decreases |calls|
  {
    if |calls| != 0 {
      MetafileStable(c, ld, calls[..|calls| - 1], basename);
      AfterKeepsOutdir(Run(c, ld, calls[..|calls| - 1]), ld, calls[|calls| - 1]);
    }
  }

  /** No modelled member changes the output directory. */
  lemma AfterKeepsOutdir(c: ConfigFiles, ld: Loaders, call: Call)
    ensures After(c, ld, call).outdir == c.outdir
  {
  }

  /** Only `add_moved_methods` sets the move flag, and no call clears it. */
  lemma AfterMoveFlag(c: ConfigFiles, ld: Loaders, call: Call)
    ensures SaveMoveMap(After(c, ld, call)) <==> SaveMoveMap(c) || call.AddMovedMethodsCall?
  {
  }

  /** Only `get_inliner_config` touches the inliner config and its load count. */
  lemma AfterKeepsInlinerConfig(c: ConfigFiles, ld: Loaders, call: Call)
    requires call != InlinerConfigCall
    ensures After(c, ld, call).inlinerConfig == c.inlinerConfig
    ensures After(c, ld, call).loads.inlinerConfig == c.loads.inlinerConfig
  {
  }

  /** Only `get_coldstart_classes` touches the coldstart class cache and its load count. */
  lemma AfterKeepsColdstartClasses(c: ConfigFiles, ld: Loaders, call: Call)
    requires call != ColdstartClassesCall
    ensures After(c, ld, call).coldstartClasses == c.coldstartClasses
    ensures After(c, ld, call).loads.coldstartClasses == c.loads.coldstartClasses
  {
  }

  /** Only `get_coldstart_methods` touches the coldstart method cache and its load count. */
  lemma AfterKeepsColdstartMethods(c: ConfigFiles, ld: Loaders, call: Call)
    requires call != ColdstartMethodsCall
    ensures After(c, ld, call).coldstartMethods == c.coldstartMethods
    ensures After(c, ld, call).loads.coldstartMethods == c.loads.coldstartMethods
  {
  }

  /** Running `a` and then `b` is running `a + b`. */
  lemma {:induction false} RunAppend(c: ConfigFiles, ld: Loaders, a: seq<Call>, b: seq<Call>)
    ensures Run(c, ld, a + b) == Run(Run(c, ld, a), ld, b)
    decreases |b|
  {
    if |b| != 0 {
      assert (a + b)[..|a + b| - 1] == a + b[..|b| - 1];
      assert (a + b)[|a + b| - 1] == b[|b| - 1];
      RunAppend(c, ld, a, b[..|b| - 1]);
    } else {
      assert a + b == a;
    }
  }

  /**
   * Mid-lifetime form of the class-list guarantee: once the attempted flag is
   * set after some calls `a`, any further calls `b` neither load the lists
   * again nor change them.
   */
  lemma ClassListsFixedOnceAttempted(c: ConfigFiles, ld: Loaders, a: seq<Call>, b: seq<Call>)
    requires Run(c, ld, a).loadClassListsAttempted
    ensures Run(c, ld, a + b).classLists == Run(c, ld, a).classLists
    ensures Run(c, ld, a + b).loads.classLists == Run(c, ld, a).loads.classLists
  {
    RunAppend(c, ld, a, b);
    ClassListsLoadedAtMostOnce(Run(c, ld, a), ld, b);
  }

  /**
   * Mid-lifetime form of the coldstart guarantee: once the class cache is
   * non-empty after some calls `a`, any further calls `b` neither reload it
   * nor change it.
   */
  lemma ColdstartClassesFixedOnceNonEmpty(c: ConfigFiles, ld: Loaders, a: seq<Call>, b: seq<Call>)
    requires |Run(c, ld, a).coldstartClasses| != 0
    ensures Run(c, ld, a + b).coldstartClasses == Run(c, ld, a).coldstartClasses
    ensures Run(c, ld, a + b).loads.coldstartClasses == Run(c, ld, a).loads.coldstartClasses
  {
    RunAppend(c, ld, a, b);
    ColdstartClassesLoads(Run(c, ld, a), ld, b);
  }

  /**
   * Mid-lifetime form of the coldstart guarantee for the method cache.
   */
  lemma ColdstartMethodsFixedOnceNonEmpty(c: ConfigFiles, ld: Loaders, a: seq<Call>, b: seq<Call>)
    requires |Run(c, ld, a).coldstartMethods| != 0
    ensures Run(c, ld, a + b).coldstartMethods == Run(c, ld, a).coldstartMethods
    ensures Run(c, ld, a + b).loads.coldstartMethods == Run(c, ld, a).loads.coldstartMethods
  {
    RunAppend(c, ld, a, b);
    ColdstartMethodsLoads(Run(c, ld, a), ld, b);
  }

  /**
   * Mid-lifetime form of the inliner guarantee: once the config exists after
   * some calls `a`, any further calls `b` neither rebuild it nor change it.
   */
  lemma InlinerConfigFixedOnceBuilt(c: ConfigFiles, ld: Loaders, a: seq<Call>, b: seq<Call>)
    requires Run(c, ld, a).inlinerConfig.Some?
    ensures Run(c, ld, a + b).inlinerConfig == Run(c, ld, a).inlinerConfig
    ensures Run(c, ld, a + b).loads.inlinerConfig == Run(c, ld, a).loads.inlinerConfig
  {
    RunAppend(c, ld, a, b);
    InlinerConfigBuiltAtMostOnce(Run(c, ld, a), ld, b);
  }

  /**
   * From construction, the move flag is set iff some call added a moved
   * method, and the map holds exactly the last owner recorded for each method.
   */
  lemma FreshMoveTable(outdir: string, ld: Loaders, calls: seq<Call>, mt: MethodTuple)
    ensures SaveMoveMap(Run(NewConfigFiles(outdir), ld, calls)) <==>
              exists i :: 0 <= i < |calls| && calls[i].AddMovedMethodsCall?
    ensures Get(GetMovedMethodsMap(Run(NewConfigFiles(outdir), ld, calls)), mt) == LastOwner(calls, mt)
  {
    SaveMoveMapRecordsAdds(NewConfigFiles(outdir), ld, calls);
    MovedMethodsMapHoldsLastOwner(NewConfigFiles(outdir), ld, calls, mt);
  }
}
