# RoochDB initialisation, modelled in Dafny

`RoochDB` is the Rooch node's composite database (`crates/rooch-db/src/lib.rs`).
It has four stores: the MoveOS state store, the Rooch chain store, the indexer
store and the indexer reader. The first two share a single RocksDB engine
instance. The indexer pair uses a directory of its own.

Initialisation works in this order:

1. It builds the engine's column-family list: the MoveOS store's names followed by the Rooch store's names.
2. It scans that list once, adding each name to a set, and aborts at the first name that is already in the set.
3. It opens the engine with the list.
4. It binds the MoveOS store to a clone of the instance and the Rooch store to the instance itself.
5. It opens the indexer store and then the indexer reader.

Every step from 3 on may fail. The first failure is returned unchanged, and no later constructor runs. `latest_root` reads the
startup info from the MoveOS store. It returns `Ok(None)` when there is none and
the mapped root object when there is one. A failed read is returned as an error.

The project has three modules:

- `Wrappers` (`wrappers.dfy`): `Option` and `Result`.
- `ColumnFamilies` (`column_families.dfy`):
  - the combined list, `Combine`;
  - the property that a list has no repeats, `Distinct`;
  - a reference definition of the position where the scan stops, `FirstRepeat`;
  - the scan itself, `CheckNoDuplicates`, a `while` loop over a `set`. Its invariants state that the set holds exactly the names seen so far and that its size equals their number;
  - lemmas relating these.
- `RoochDb` (`rooch_db.dfy`): the initialisation chain and `latest_root`.
  - The engine, the metrics sink, the stores and the startup info are opaque types.
  - Each external constructor is a function value in a `Collaborators` record. The properties therefore hold whatever those constructors return.
  - Initialisation also returns the `Call`s it made, in order. This trace is how the model states the ordering: the check comes before the open, nothing runs after a failure, and both colocated stores receive the same instance.
  - The `panic!` on a duplicated column family is the outcome `DuplicateCF(name)`, separate from `Failed(error)`.

## Model

| member | source | states |
|---|---|---|
| `ColumnFamilies.Combine` | crates/rooch-db/src/lib.rs:33-34 | the engine's list is the MoveOS names then the Rooch names: its length is the sum, and each name keeps its position and order |
| `ColumnFamilies.FirstRepeat` | crates/rooch-db/src/lib.rs:36-43 | reference verdict of the scan: None exactly when all names are pairwise distinct; otherwise the position of a name already seen earlier, with no repeat before it |
| `ColumnFamilies.FirstRepeatUnique` | crates/rooch-db/src/lib.rs:38-40 | the position where the first `insert` fails is unique: every position that is a first repeat is the one `FirstRepeat` returns |
| `ColumnFamilies.DistinctCombine` | crates/rooch-db/src/lib.rs:33-43 | the combined list passes the scan exactly when each store's list is repeat-free and no name is declared by both stores |
| `ColumnFamilies.CheckNoDuplicates` | crates/rooch-db/src/lib.rs:36-43 | the set-based single pass returns no name exactly when the list is repeat-free; otherwise it returns the name at the first repeat, the earliest name equal to some name before it |
| `ColumnFamilies.Scenarios` | crates/rooch-db/src/lib.rs:33-43 | `["cf_a"]`+`["cf_a"]` stops at position 1 (name `"cf_a"`); `["cf_a","cf_b"]`+`["cf_c"]` combines to `["cf_a","cf_b","cf_c"]` and passes |
| `RoochDb.OpenAndBind` | crates/rooch-db/src/lib.rs:45-62 | the engine is opened first, with the given list; every call before the last succeeded; a failure is the last call's error, unchanged; success means all five calls ran and succeeded; the MoveOS and Rooch stores receive the same instance over the opened engine and the given metrics; the indexer pair gets the indexer directory; the handle holds exactly the four constructed stores |
| `RoochDb.InitSpec` | crates/rooch-db/src/lib.rs:30-63 | aborts with `DuplicateCF` exactly when the combined list has a repeat, naming the first repeat, before any constructor runs (neither the engine open nor any store constructor); any call made starts with opening the engine on the checked, repeat-free combined list; past the check, the outcome is the construction chain's |
| `RoochDb.InitWithMetrics` | crates/rooch-db/src/lib.rs:30-63 | the imperative append, scan and chain produce the outcome and call sequence of `InitSpec` |
| `RoochDb.Init` | crates/rooch-db/src/lib.rs:25-28 | `init` is `init_with_metrics` with the process-wide metrics |
| `RoochDb.InitWithMockMetricsForTest` | crates/rooch-db/src/lib.rs:65-69 | the test entry point is `init_with_metrics` with metrics over a caller-supplied fresh registry |
| `RoochDb.SharedNameAbortsBeforeOpen` | crates/rooch-db/src/lib.rs:33-46 | a name declared by both stores makes initialisation abort with `DuplicateCF` before the engine is opened |
| `RoochDb.DisjointNamesReachOpen` | crates/rooch-db/src/lib.rs:33-46 | repeat-free, disjoint store lists pass the check, and the first call opens the engine with their concatenation |
| `RoochDb.MetricsOnlyReachInstance` | crates/rooch-db/src/lib.rs:45-48 | two metrics sinks give the same namespace verdict and the same first call; if the store constructors ignore the sink, they give the same outcome, so `init` and the test entry point agree |
| `RoochDb.LatestRoot` | crates/rooch-db/src/lib.rs:71-75 | a read error is returned as `Err` with the same error, never as absence; absent startup info gives `Ok(None)`; present startup info `s` gives `Ok(Some(into_root_object(s)))` |

## Left out

- RocksDB itself, `config.rocksdb_config()` and the on-disk behaviour of opening the engine are not modelled. The open is the opaque function `openRocksDB`, which returns a `Result`.
- `StoreConfig::get_store_dir` and `get_indexer_dir` derive paths from configuration. That is configuration I/O, so the two directories are plain fields of `StoreConfig`.
- `DBMetrics`, the Prometheus registry and `Arc` reference counting carry no logic here. The metrics sink is an opaque value. `DBMetrics::get()` is the field `globalMetrics`. `DBMetrics::new` over a fresh `prometheus::Registry` is the function `metricsForRegistry`, applied to a registry passed in by the caller. Allocating that registry is not modelled.
- The internals of `MoveOSStore`, `RoochStore`, `IndexerStore`, `IndexerReader`, `get_startup_info` and `into_root_object` live in other crates. They appear only as function values. `LatestRoot` receives the startup-info read as a parameter, standing for whatever the store holds when the call is made.
- Concurrent use of the shared engine and of the `RoochDB` handle is not modelled. Its safety comes from the engine, not from this file.
- The `panic!` on a duplicated column family is modelled as the outcome `DuplicateCF(name)`. Unwinding the process is not modelled.
- `StoreInstance` is a value here. The clone passed to `MoveOSStore::new_with_instance` and the original passed to `RoochStore::new_with_instance` are therefore the same value. Sharing one physical engine through reference counting is not modelled beyond that.
- The engine receives the full combined list (crates/rooch-db/src/lib.rs:46). Nothing is deduplicated, because the scan has already shown the list to be repeat-free.
