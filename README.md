# Data connection cache and structured log formatter

A Dafny model of the core of DataVirtualisationInPython. The model covers two parts:

- **The `Connection` base class** (`data_virtualisation/connection.py`).
  - Construction checks the purpose once: it fails with `ValueError` only when no purpose is given and `force_purpose` is set.
  - The cache mode is chosen once: an in-memory `cached_values` slot that starts as `None`, or a persisted pickle file at the relative path `cached_values.pkl`.
  - `cache(full_df=None)` is a probe when the argument is `None` and a store otherwise.
  - `load_cached_data()` reads the cached table back.
  - The cache-aware fetch idiom from the docstring is modelled too.
  - The default `preview`/`fetch`/`validate` stubs log an error and return empty results.
- **The `DataConnectionLogger` formatter and `NoErrorFilter`** (`data_virtualisation/logging_config/data_connection_logger.py`).
  - `_prepare_log_dict` builds an "always include" map: message, timestamp, user, and optionally the formatted exception and stack.
  - It then applies the `fmt_keys` renames in order. Each rename pops its source field. It takes that value when it is truthy and otherwise reads the record attribute, which fails when the attribute is absent.
  - It merges what is left of the always-include map over the renamed fields.
  - Last, it writes every record attribute that is not a built-in `LogRecord` attribute.
  - `NoErrorFilter` admits records whose level is at most INFO.

Modules:

- `Wrappers` (`wrappers.dfy`): `Option` (Python's `None`) and `Result` (a raised exception).
- `Logging` (`logging.dfy`): the standard logging levels, a `LogEvent`, and a `Logger` class holding the events emitted on the `data_connections` channel.
- `Connections` (`connection.dfy`):
  - A DataFrame is `Table<Row> = seq<Row>`, and `pd.DataFrame({})` is the empty sequence.
  - The working directory is a `FileSystem` object, a map from relative path to pickled table, shared by every connection built on it.
  - An instance's cache state is the tagged variant `CacheSlot`: `InMemory(cachedValues)` or `Persisted(pickleFile)`.
  - `purpose` and `persistCache` are `const` fields, so no method can change them.
  - Pure functions (`CacheSpec`, `Load`, `FetchSpec`) specify what the class methods do to the view `CacheView(slot, files)`. Each method's `ensures` equates the method's result and new state with those functions.
- `DataConnectionLogging` (`data_connection_logger.dfy`):
  - A record is its attribute dictionary (`map<string, Value>`).
  - `Value` carries Python truthiness, including an `Object` case that records its own `bool()`.
  - `fmt_keys` is the sequence of its items in dictionary order.
  - `LogDict` is a closed-form reference definition of the output: renamed fields, overlaid by the unconsumed always-include fields, overlaid by the extras. Otherwise it is the error of the first rename whose attribute is missing.
  - `PrepareLogDict` follows the source's steps: build the always-include map, run the pop loop over the renames, update with what remains, then loop over the record's attributes. It is proved equal to `LogDict`.

What comes from outside is passed in as parameters:

- The formatter's environment is one `Env` value: `record.getMessage()`, the ISO-8601 rendering of `record.created`, `os.getlogin()`, `formatException`, `formatStack`.
- The concrete class name for the stub messages (`type(self).__name__`).
- The table an expensive retrieval would return, in the fetch idiom.

Behaviour of the code worth knowing:

- A rename takes an always-include value only when that value is truthy, not merely present. An empty message therefore falls back to the record attribute `message` (`EmptyMessageFallsBackToRecord`).
- The stubs log at ERROR level.
- The base `validate` returns two empty tables; it partitions nothing.
- `timestamp` and `user` are not built-in attribute names, so a record extra with either name overrides the always-include value.
- The pickle path is the fixed relative path `cached_values.pkl`. Every persisted connection in one working directory therefore reads and overwrites the same artifact, whatever its class or data source (`PersistedStoreIsShared`).
- Every connection logs on the one `data_connections` logger; `New` and the constructor require a logger of that name.

## Model

| member | source | states |
|---|---|---|
| Connections.CheckPurpose | data_virtualisation/connection.py:98-100 | Construction fails with the "Please provide a purpose" ValueError exactly when the purpose is None and force_purpose is set; otherwise the purpose is kept as given |
| Connections.Connection.New | data_virtualisation/connection.py:77-111 | `__init__`, with the defaults no purpose, purpose not forced and in-memory cache: fails exactly when the purpose is missing and forced; otherwise a fresh valid connection with the given purpose, mode and the initial slot of that mode |
| Connections.Connection.constructor | data_virtualisation/connection.py:100-111 | Sets purpose and mode; persisted mode gets the pickle path cached_values.pkl, in-memory mode gets cached_values None |
| Connections.InitialSlot | data_virtualisation/connection.py:107-111 | The initial slot agrees with persist_cache: path cached_values.pkl when persisted, an empty held value otherwise |
| Connections.CacheSpec | data_virtualisation/connection.py:160-171 | A probe returns whether the pickle path exists (persisted) or a value is held (in memory) and changes nothing; a store returns True, after which a probe succeeds; the mode and pickle path never change; only the pickle path's file can change |
| Connections.Load | data_virtualisation/connection.py:187-191 | In memory it returns the held value (None if nothing was stored); persisted it returns the table stored at cached_values.pkl, or fails with FileNotFound exactly when the file is absent; after a successful probe it returns a table |
| Connections.Connection.Cache | data_virtualisation/connection.py:160-171 | The returned bool and the new slot and files are those of CacheSpec on the old ones; the mode invariant is kept |
| Connections.Connection.LoadCachedData | data_virtualisation/connection.py:187-191 | Returns Load of the current slot and files, changing nothing |
| Connections.FetchSpec | data_virtualisation/connection.py:176-181 | The fetch idiom retrieves exactly when the probe fails; then it returns the retrieved table and stores it; otherwise it returns the cached table and changes nothing; afterwards the cache is populated |
| Connections.Connection.FetchThroughCache | data_virtualisation/connection.py:176-181 | The method written as the idiom (probe, load, or retrieve and store) returns and leaves what FetchSpec describes |
| Connections.Connection.Preview | data_virtualisation/connection.py:125-126 | Returns the empty table, appends one ERROR event naming preview and the class, leaves the cache untouched |
| Connections.Connection.Fetch | data_virtualisation/connection.py:140-141 | Returns the empty table, appends one ERROR event naming fetch and the class, leaves the cache untouched |
| Connections.Connection.Validate | data_virtualisation/connection.py:206-207 | Returns a dictionary with exactly the keys valid and invalid, both empty tables, after logging one ERROR event; the cache is untouched |
| Connections.FreshProbe | data_virtualisation/connection.py:107-111 | A freshly constructed in-memory connection probes False; a persisted one probes whether cached_values.pkl exists |
| Connections.StoreThenProbeAndLoad | data_virtualisation/connection.py:160-191 | After a store, a probe returns True without changing state, and a load returns the stored table, in both modes |
| Connections.PersistedStoreIsShared | data_virtualisation/connection.py:160-165 | A table stored by one persisted connection is seen by probe and load of any other persisted connection on the same files |
| Connections.LoadWithoutArtifactFails | data_virtualisation/connection.py:187-189 | Loading in persisted mode when cached_values.pkl is absent fails with FileNotFound |
| Connections.ModeIsFixed | data_virtualisation/connection.py:107-111 | After any sequence of cache calls, the slot still matches the mode chosen at construction |
| Connections.FetchTwice | data_virtualisation/connection.py:176-181 | The first fetch on an empty cache returns the retrieved data; a second fetch returns the same data without retrieving and changes nothing |
| Connections.PersistedCacheOutlivesInstance | data_virtualisation/connection.py:160-189 | A client proof from the method contracts alone: a second persisted connection loads what the first stored, and only cached_values.pkl changed |
| DataConnectionLogging.NoErrorFilterLevels | data_virtualisation/logging_config/data_connection_logger.py:73-74 | For every integer level, the filter admits it exactly when it is at most INFO (20); admission is downward closed; DEBUG and INFO pass, WARNING, ERROR and CRITICAL do not |
| DataConnectionLogging.DataConnectionLogger.constructor | data_virtualisation/logging_config/data_connection_logger.py:35-37 | fmt_keys defaults to the empty map when None is passed, and is kept as given otherwise |
| DataConnectionLogging.AlwaysInclude | data_virtualisation/logging_config/data_connection_logger.py:44-55 | Always has message, timestamp and user with the given values; has exc_info exactly when record.exc_info is not None, and stack_info likewise, with the formatted texts; reading a missing exc_info or stack_info attribute fails |
| DataConnectionLogging.ApplyRenames | data_virtualisation/logging_config/data_connection_logger.py:57-62 | The pop loop over the renames yields the reference rename map and the always-include map minus every named source, or the AttributeError of the first rename whose fallback attribute is missing |
| DataConnectionLogging.CopyExtras | data_virtualisation/logging_config/data_connection_logger.py:65-67 | The loop over the record's attributes leaves the map overridden by every attribute not in LOG_RECORD_BUILTIN_ATTRS |
| DataConnectionLogging.DataConnectionLogger.PrepareLogDict | data_virtualisation/logging_config/data_connection_logger.py:43-69 | `_prepare_log_dict` returns exactly the reference dictionary LogDict, including its errors |
| DataConnectionLogging.LogDictFailsIff | data_virtualisation/logging_config/data_connection_logger.py:57-62 | Formatting fails exactly when some rename does not take an always-include value and its record attribute is absent |
| DataConnectionLogging.LogDictKeys | data_virtualisation/logging_config/data_connection_logger.py:57-67 | The output fields are the rename outputs, the always-include fields no rename named, and the non-built-in record attributes |
| DataConnectionLogging.RenameOutput | data_virtualisation/logging_config/data_connection_logger.py:57-62 | The last rename writing a field, when nothing later overrides it, holds the always-include value it names if that is still unpopped and truthy, and otherwise the record attribute it names |
| DataConnectionLogging.ConsumedFieldsDoNotReappear | data_virtualisation/logging_config/data_connection_logger.py:59-63 | A source field popped by a rename does not reappear under its own name through the merge |
| DataConnectionLogging.UnconsumedFieldsAppear | data_virtualisation/logging_config/data_connection_logger.py:63 | An always-include field no rename names appears under its own name with its value, overriding a rename output of that name |
| DataConnectionLogging.ExtrasAppearVerbatim | data_virtualisation/logging_config/data_connection_logger.py:65-67 | Every record attribute not in LOG_RECORD_BUILTIN_ATTRS appears verbatim, winning every collision |
| DataConnectionLogging.BuiltinsOnlyThroughRenames | data_virtualisation/logging_config/data_connection_logger.py:7-31 | A built-in attribute that is not an always-include field appears in the output only as the output field of a rename |
| DataConnectionLogging.LevelNameRename | data_virtualisation/logging_config/data_connection_logger.py:57-67 | With the rename lvl to levelname, the output has lvl equal to the record's levelname and no levelname field |
| DataConnectionLogging.PlainRecord | data_virtualisation/logging_config/data_connection_logger.py:44-67 | Without renames or exception info, the output has the message, the timestamp and user unless an extra replaces them, and every extra attribute; it has no exc_info or stack_info field |
| DataConnectionLogging.EmptyMessageFallsBackToRecord | data_virtualisation/logging_config/data_connection_logger.py:57-62 | An empty message is falsy, so a rename of message reads the record attribute message: it fails without that attribute and takes its value otherwise |

## Left out

- `setup_logging`, `logging.getLogger` wiring, `dictConfig` and `logging_config/config.json` are configuration I/O. A connection holds a `Logger` value that collects the events emitted on it; handlers, sinks and filters attached to it are not modelled.
- The `print` in the in-memory probe is debug output on standard output and is not modelled.
- Pickling is a lossless write of the table into the shared file map. Byte formats, corrupt or foreign artifacts, and permission or disk-full failures are not modelled, so a store always succeeds.
- `json.dumps(..., default=str)` in `format`, and the key order of the output dictionary, are not modelled. The output is an unordered map.
- `record.getMessage()`, the datetime rendering of the float `record.created`, `os.getlogin()`, `formatException` and `formatStack` are foreign calls and environment access. Their results are given as the `Env` strings.
- `getattr(record, name)` is modelled as a lookup in the record's attribute dictionary. Class-level attributes and methods of `LogRecord` that `getattr` would also find are not modelled.
- NoErrorFilterLevels: the filter is given the record's `levelno` as an integer. A record without a numeric `levelno` is not modelled.
- A DataFrame's columns and column types are not modelled; a table is a sequence of opaque rows.
- `__repr__` and `__str__` are string templates and are not modelled.
- `data_virtualisation/example_connection.py`, `data_virtualisation/__init__.py`, `main.py` and the `main()` functions are not part of this model. They are CSV reads, directory listing, sleeping and script entry points. The example's `fetch` is the idiom captured by `FetchThroughCache`.
- Concurrency is not modelled; the source has no locking.
- Connections.Connection.Cache, Connections.Connection.LoadCachedData, Connections.Connection.FetchThroughCache: tables are modelled as immutable values, so the in-memory backend's sharing of the caller's DataFrame object is not captured. The source's in-memory cache keeps a reference to the stored DataFrame (`data_virtualisation/connection.py:170`) and `load_cached_data` returns that same object (line 191). An in-place edit of a stored or loaded table therefore changes what later loads and fetches return. The persisted backend pickles a snapshot (lines 163-164) and unpickles a fresh copy on each load (lines 188-189), so such edits do not show through there. `FetchTwice`'s "same data" holds in the source only when the caller does not mutate the returned table in between.
