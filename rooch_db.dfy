/**
 * `RoochDB`: the node's composite database. Initialisation checks the
 * column-family namespace, opens one RocksDB engine with the combined
 * list, binds the MoveOS state store and the Rooch chain store to that
 * one engine instance, and opens the indexer store and reader on their
 * own directory. Every step after the check may fail; the first failure
 * is returned as it is and nothing after it runs.
 *
 * The engine, the stores and their constructors live in other crates.
 * Their values are opaque types here, and each constructor is a function
 * value in `Collaborators`, so every property below holds whatever those
 * constructors do.
 */
module RoochDb {
  import opened Wrappers
  import opened ColumnFamilies

  type Path = string

  // Values produced and consumed by collaborator crates; only identity matters.
  type Error
  type RocksDBConfig
  type RocksDB(!new)
  type DBMetrics(!new)
  type Registry
  type MoveOSStore
  type RoochStore
  type IndexerStore
  type IndexerReader
  type StartupInfo
  type ObjectState

  /** The parts of `StoreConfig` this file reads. */
  datatype StoreConfig = StoreConfig(storeDir: Path, indexerDir: Path, rocksdbConfig: RocksDBConfig)

  /** `StoreInstance::new_db_instance_with_metrics`: the engine together with its metrics sink. */
  datatype StoreInstance = DbInstanceWithMetrics(db: RocksDB, metrics: DBMetrics)

  /** The composite handle: the four stores, nothing else. */
  datatype RoochDB = RoochDB(
    moveosStore: MoveOSStore,
    roochStore: RoochStore,
    indexerStore: IndexerStore,
    indexerReader: IndexerReader)

  /** What the other crates provide: declared names, the global metrics, and constructors. */
  datatype Collaborators = Collaborators(
    moveosColumnFamilies: seq<CfName>,
    roochColumnFamilies: seq<CfName>,
    globalMetrics: DBMetrics,
    metricsForRegistry: Registry -> DBMetrics,
    openRocksDB: (Path, seq<CfName>, RocksDBConfig) -> Result<RocksDB, Error>,
    newMoveOSStore: StoreInstance -> Result<MoveOSStore, Error>,
    newRoochStore: StoreInstance -> Result<RoochStore, Error>,
    newIndexerStore: Path -> Result<IndexerStore, Error>,
    newIndexerReader: Path -> Result<IndexerReader, Error>)

  /** One call into a collaborator constructor, with the arguments it received. */
  datatype Call =
    | OpenRocksDB(dir: Path, cfs: seq<CfName>, config: RocksDBConfig)
    | NewMoveOSStore(instance: StoreInstance)
    | NewRoochStore(instance: StoreInstance)
    | NewIndexerStore(dir: Path)
    | NewIndexerReader(dir: Path)

  /**
   * How initialisation ends: with the handle, with a collaborator's error,
   * or with the abort on a duplicated column family (a `panic!` in the
   * Rust code, kept apart from ordinary errors).
   */
  datatype InitOutcome =
    | Initialized(db: RoochDB)
    | Failed(error: Error)
    | DuplicateCF(name: CfName)

  /** The error a recorded call returns, or None if it succeeds. */
  function CallError(env: Collaborators, call: Call): Option<Error>
  {
    match call
    case OpenRocksDB(dir, cfs, config) => ErrorOf(env.openRocksDB(dir, cfs, config))
    case NewMoveOSStore(instance) => ErrorOf(env.newMoveOSStore(instance))
    case NewRoochStore(instance) => ErrorOf(env.newRoochStore(instance))
    case NewIndexerStore(dir) => ErrorOf(env.newIndexerStore(dir))
    case NewIndexerReader(dir) => ErrorOf(env.newIndexerReader(dir))
  }

  function ErrorOf<T>(r: Result<T, Error>): Option<Error>
  {
    match r
    case Ok(_) => None
    case Err(e) => Some(e)
  }

  /**
   * The `?`-chain after the check: open the engine with `cfs`, wrap it with
   * `metrics`, build the MoveOS store from a clone of that instance and the
   * Rooch store from the instance itself, then the indexer store and the
   * indexer reader on the indexer directory. Returns the outcome and the
   * calls made, in order.
   */
  function OpenAndBind(config: StoreConfig, metrics: DBMetrics, cfs: seq<CfName>, env: Collaborators)
    : (res: (InitOutcome, seq<Call>))
    // the engine is opened first, with exactly the checked list
    ensures 1 <= |res.1| <= 5
    ensures res.1[0] == OpenRocksDB(config.storeDir, cfs, config.rocksdbConfig)
    // every call but the last succeeded; an error is the last call's, unchanged
    ensures forall i | 0 <= i < |res.1| - 1 :: CallError(env, res.1[i]).None?
    ensures !res.0.DuplicateCF?
    ensures res.0.Failed? <==> CallError(env, res.1[|res.1| - 1]).Some?
    ensures res.0.Failed? ==> CallError(env, res.1[|res.1| - 1]) == Some(res.0.error)
    ensures res.0.Initialized? <==> |res.1| == 5 && CallError(env, res.1[4]).None?
    // both colocated stores receive the one instance over the opened engine
    ensures |res.1| >= 2 ==>
      var engine := env.openRocksDB(config.storeDir, cfs, config.rocksdbConfig);
      engine.Ok? &&
      var instance := DbInstanceWithMetrics(engine.value, metrics);
      res.1[1] == NewMoveOSStore(instance) && (|res.1| >= 3 ==> res.1[2] == NewRoochStore(instance))
    ensures |res.1| >= 4 ==> res.1[3] == NewIndexerStore(config.indexerDir)
    ensures |res.1| == 5 ==> res.1[4] == NewIndexerReader(config.indexerDir)
    ensures res.0.Initialized? ==>
      var engine := env.openRocksDB(config.storeDir, cfs, config.rocksdbConfig);
      engine.Ok? &&
      var instance := DbInstanceWithMetrics(engine.value, metrics);
      env.newMoveOSStore(instance).Ok? && env.newRoochStore(instance).Ok? &&
      env.newIndexerStore(config.indexerDir).Ok? && env.newIndexerReader(config.indexerDir).Ok? &&
      res.0.db == RoochDB(
        env.newMoveOSStore(instance).value,
        env.newRoochStore(instance).value,
        env.newIndexerStore(config.indexerDir).value,
        env.newIndexerReader(config.indexerDir).value)
  {
    var calls := [OpenRocksDB(config.storeDir, cfs, config.rocksdbConfig)];
    match env.openRocksDB(config.storeDir, cfs, config.rocksdbConfig)
    case Err(e) => (Failed(e), calls)
    case Ok(rocks) =>
      var instance := DbInstanceWithMetrics(rocks, metrics);
      var calls := calls + [NewMoveOSStore(instance)];
      match env.newMoveOSStore(instance)
      case Err(e) => (Failed(e), calls)
      case Ok(moveosStore) =>
        var calls := calls + [NewRoochStore(instance)];
        match env.newRoochStore(instance)
        case Err(e) => (Failed(e), calls)
        case Ok(roochStore) =>
          var calls := calls + [NewIndexerStore(config.indexerDir)];
          match env.newIndexerStore(config.indexerDir)
          case Err(e) => (Failed(e), calls)
          case Ok(indexerStore) =>
            var calls := calls + [NewIndexerReader(config.indexerDir)];
            match env.newIndexerReader(config.indexerDir)
            case Err(e) => (Failed(e), calls)
            case Ok(indexerReader) =>
              (Initialized(RoochDB(moveosStore, roochStore, indexerStore, indexerReader)), calls)
  }

  /**
   * Reference definition of `init_with_metrics`: the namespace check on the
   * combined list, then `OpenAndBind` only if the check passes.
   */
  function InitSpec(config: StoreConfig, metrics: DBMetrics, env: Collaborators)
    : (res: (InitOutcome, seq<Call>))
    ensures var cfs := Combine(env.moveosColumnFamilies, env.roochColumnFamilies);
      (res.0.DuplicateCF? <==> !Distinct(cfs)) &&
      // the abort cites the first repeat; no constructor runs (neither the engine open nor any store)
      (res.0.DuplicateCF? ==> res.1 == [] && res.0.name == cfs[FirstRepeat(cfs).value]) &&
      // the engine is opened only with the checked, repeat-free combined list
      (res.1 != [] ==> Distinct(cfs) && res.1[0] == OpenRocksDB(config.storeDir, cfs, config.rocksdbConfig)) &&
      // past the check, the outcome and the calls are those of the construction chain
      (!res.0.DuplicateCF? ==> res == OpenAndBind(config, metrics, cfs, env))
  {
    var cfs := Combine(env.moveosColumnFamilies, env.roochColumnFamilies);
    match FirstRepeat(cfs)
    case Some(k) => (DuplicateCF(cfs[k]), [])
    case None => OpenAndBind(config, metrics, cfs, env)
  }

  /**
   * `RoochDB::init_with_metrics`: builds the combined list, runs the
   * uniqueness scan, and only then runs the construction chain.
   */
  method InitWithMetrics(config: StoreConfig, metrics: DBMetrics, env: Collaborators)
    returns (r: InitOutcome, calls: seq<Call>)
    ensures (r, calls) == InitSpec(config, metrics, env)
  {
    var columnFamilies := env.moveosColumnFamilies;
    columnFamilies := columnFamilies + env.roochColumnFamilies;
    var dup := CheckNoDuplicates(columnFamilies);
    if dup.Some? {
      return DuplicateCF(dup.value), [];
    }
    var res := OpenAndBind(config, metrics, columnFamilies, env);
    r, calls := res.0, res.1;
  }

  /** `RoochDB::init`: delegates with the process-wide metrics. */
  method Init(config: StoreConfig, env: Collaborators) returns (r: InitOutcome, calls: seq<Call>)
    ensures (r, calls) == InitSpec(config, env.globalMetrics, env)
  {
    r, calls := InitWithMetrics(config, env.globalMetrics, env);
  }

  /** `RoochDB::init_with_mock_metrics_for_test`: delegates with metrics over a fresh registry. */
  method InitWithMockMetricsForTest(config: StoreConfig, registry: Registry, env: Collaborators)
    returns (r: InitOutcome, calls: seq<Call>)
    ensures (r, calls) == InitSpec(config, env.metricsForRegistry(registry), env)
  {
    r, calls := InitWithMetrics(config, env.metricsForRegistry(registry), env);
  }

  /**
   * A name declared by both the MoveOS store and the Rooch store aborts
   * initialisation before the engine is opened.
   */
  lemma SharedNameAbortsBeforeOpen(
    config: StoreConfig, metrics: DBMetrics, env: Collaborators, i: nat, j: nat)
    requires i < |env.moveosColumnFamilies| && j < |env.roochColumnFamilies|
    requires env.moveosColumnFamilies[i] == env.roochColumnFamilies[j]
    ensures InitSpec(config, metrics, env).0.DuplicateCF?
    ensures InitSpec(config, metrics, env).1 == []
  {
  }

  /**
   * When each store's names are repeat-free and no name is declared by
   * both, the check passes and the engine is opened with the combined list.
   */
  lemma DisjointNamesReachOpen(config: StoreConfig, metrics: DBMetrics, env: Collaborators)
    requires Distinct(env.moveosColumnFamilies) && Distinct(env.roochColumnFamilies)
    requires forall i, j | 0 <= i < |env.moveosColumnFamilies| && 0 <= j < |env.roochColumnFamilies| ::
      env.moveosColumnFamilies[i] != env.roochColumnFamilies[j]
    ensures !InitSpec(config, metrics, env).0.DuplicateCF?
    ensures InitSpec(config, metrics, env).1 != []
    ensures InitSpec(config, metrics, env).1[0] ==
      OpenRocksDB(config.storeDir, env.moveosColumnFamilies + env.roochColumnFamilies, config.rocksdbConfig)
  {
  }

  /** The store constructors do not look at the instance's metrics sink. */
  ghost predicate StoresIgnoreMetrics(env: Collaborators)
  {
    forall db, m1, m2 ::
      env.newMoveOSStore(DbInstanceWithMetrics(db, m1)) == env.newMoveOSStore(DbInstanceWithMetrics(db, m2)) &&
      env.newRoochStore(DbInstanceWithMetrics(db, m1)) == env.newRoochStore(DbInstanceWithMetrics(db, m2))
  }

  /**
   * The metrics argument reaches only the engine instance: the namespace
   * verdict, the engine open and its outcome are the same for any two
   * sinks, and if the stores do not depend on the sink, so is the whole
   * outcome (so `init` and `init_with_mock_metrics_for_test` agree).
   */
  lemma MetricsOnlyReachInstance(config: StoreConfig, m1: DBMetrics, m2: DBMetrics, env: Collaborators)
    ensures var (r1, c1) := InitSpec(config, m1, env);
      var (r2, c2) := InitSpec(config, m2, env);
      (r1.DuplicateCF? <==> r2.DuplicateCF?) &&
      (r1.DuplicateCF? ==> r1 == r2) &&
      (c1 != [] <==> c2 != []) &&
      (c1 != [] ==> c1[0] == c2[0])
    ensures StoresIgnoreMetrics(env) ==>
      InitSpec(config, m1, env).0 == InitSpec(config, m2, env).0 &&
      |InitSpec(config, m1, env).1| == |InitSpec(config, m2, env).1|
  {
  }

  /**
   * `RoochDB::latest_root`: reads the startup info from the MoveOS store's
   * config store and maps it to the root object. `readStartupInfo` is that
   * read at the time of the call; `intoRootObject` is
   * `StartupInfo::into_root_object`.
   */
  function LatestRoot(
    db: RoochDB,
    readStartupInfo: MoveOSStore -> Result<Option<StartupInfo>, Error>,
    intoRootObject: StartupInfo -> ObjectState)
    : (r: Result<Option<ObjectState>, Error>)
    // a read error is reported as such, never as an absent root
    ensures r.Err? <==> readStartupInfo(db.moveosStore).Err?
    ensures r.Err? ==> r.error == readStartupInfo(db.moveosStore).error
    // absence is a normal answer
    ensures r == Ok(None) <==> readStartupInfo(db.moveosStore) == Ok(None)
    ensures r.Ok? && r.value.Some? <==>
      readStartupInfo(db.moveosStore).Ok? && readStartupInfo(db.moveosStore).value.Some?
    ensures r.Ok? && r.value.Some? ==>
      r.value.value == intoRootObject(readStartupInfo(db.moveosStore).value.value)
  {
    match readStartupInfo(db.moveosStore)
    case Err(e) => Err(e)
    case Ok(startupInfo) =>
      Ok(match startupInfo
        case None => None
        case Some(s) => Some(intoRootObject(s)))
  }
}
