/**
 * The `Connection` base class of data_virtualisation/connection.py: purpose
 * checking at construction, the two-mode cache behind the single `cache`
 * entry point, `load_cached_data`, the cache-aware fetch idiom its docstring
 * prescribes, and the default `preview`/`fetch`/`validate` stubs.
 *
 * A pandas DataFrame is an opaque sequence of rows. The working directory is
 * a `FileSystem` object mapping relative paths to the tables pickled there;
 * every connection built on the same `FileSystem` sees the same files.
 */
module Connections {
  import opened Wrappers
  import opened Logging

  /** A DataFrame, seen only as its rows. */
  type Table<Row> = seq<Row>

  /** `pd.DataFrame({})`: no columns, no rows. */
  function EmptyTable<Row>(): Table<Row> { [] }

  /** The relative path of the persisted cache artifact. */
  const PickleFile: string := "cached_values.pkl"

  /** The name `logging.getLogger` is asked for: every connection logs on this one channel. */
  const LoggerName: string := "data_connections"

  const PurposeMessage: string := "Please provide a purpose for this connection."

  /** The `ValueError` raised by the constructor. */
  datatype ConfigError = ValueError(message: string)

  /** Opening a pickle file for reading when it does not exist (`FileNotFoundError`). */
  datatype StorageError = FileNotFound(path: string)

  /**
   * The cache state of one instance: exactly one of the two backends. In
   * memory, an optional held table (`cached_values`); persisted, the path of
   * the pickle file (`pickle_file`).
   */
  datatype CacheSlot<Row> = InMemory(cachedValues: Option<Table<Row>>) | Persisted(pickleFile: string)

  /** The slot agrees with the `persist_cache` flag chosen at construction. */
  predicate SlotMatchesMode<Row>(slot: CacheSlot<Row>, persistCache: bool)
  {
    if persistCache then slot == Persisted(PickleFile) else slot.InMemory?
  }

  /** What the cache operations observe: the instance's slot and the files of the working directory. */
  datatype CacheView<Row> = CacheView(slot: CacheSlot<Row>, files: map<string, Table<Row>>)

  /** The purpose check of `__init__`: it fails exactly when no purpose is given and one is forced. */
  function CheckPurpose(purpose: Option<string>, forcePurpose: bool): (r: Result<Option<string>, ConfigError>)
    ensures r.Failure? <==> purpose.None? && forcePurpose
    ensures r.Failure? ==> r.error == ValueError(PurposeMessage)
    ensures r.Success? ==> r.value == purpose
  {
    if purpose.None? && forcePurpose then Failure(ValueError(PurposeMessage)) else Success(purpose)
  }

  /** The slot `__init__` sets up for the chosen mode. */
  function InitialSlot<Row>(persistCache: bool): (slot: CacheSlot<Row>)
    ensures SlotMatchesMode(slot, persistCache)
    ensures !persistCache ==> slot.cachedValues == None
  {
    if persistCache then Persisted(PickleFile) else InMemory(None)
  }

  /** The answer of a probe, `cache()` with no argument. */
  predicate Probe<Row>(v: CacheView<Row>)
  {
    match v.slot
    case Persisted(path) => path in v.files
    case InMemory(held) => held.Some?
  }

  /**
   * `cache(full_df)`: a probe when `fullDf` is None, a store otherwise. The
   * result is the returned bool and the view afterwards.
   */
  function CacheSpec<Row>(v: CacheView<Row>, fullDf: Option<Table<Row>>): (res: (bool, CacheView<Row>))
    ensures fullDf.None? ==> res.0 == Probe(v) && res.1 == v
    ensures fullDf.Some? ==> res.0 && Probe(res.1)
    ensures res.1.slot.Persisted? == v.slot.Persisted?
    ensures v.slot.Persisted? ==> res.1.slot == v.slot
    ensures v.slot.InMemory? ==> res.1.files == v.files
    ensures forall path :: path in v.files && !(v.slot.Persisted? && path == v.slot.pickleFile) ==>
              path in res.1.files && res.1.files[path] == v.files[path]
    ensures forall path :: path in res.1.files ==> path in v.files || (v.slot.Persisted? && path == v.slot.pickleFile)
  {
    match fullDf
    case None => (Probe(v), v)
    case Some(t) =>
      match v.slot
      case Persisted(path) => (true, CacheView(v.slot, v.files[path := t]))
      case InMemory(_) => (true, CacheView(InMemory(Some(t)), v.files))
  }

  /**
   * `load_cached_data()`: the pickled table, or FileNotFound when the file is
   * absent; in memory, whatever is held (None when nothing was stored).
   */
  function Load<Row>(v: CacheView<Row>): (r: Result<Option<Table<Row>>, StorageError>)
    ensures v.slot.InMemory? ==> r == Success(v.slot.cachedValues)
    ensures v.slot.Persisted? ==> (r.Failure? <==> !Probe(v))
    ensures v.slot.Persisted? && r.Failure? ==> r.error == FileNotFound(v.slot.pickleFile)
    ensures Probe(v) ==> r.Success? && r.value.Some?
    ensures v.slot.Persisted? && Probe(v) ==> r == Success(Some(v.files[v.slot.pickleFile]))
  {
    match v.slot
    case Persisted(path) => if path in v.files then Success(Some(v.files[path])) else Failure(FileNotFound(path))
    case InMemory(held) => Success(held)
  }

  /**
   * The fetch idiom of the `load_cached_data` docstring, where `retrieved`
   * stands for what the expensive retrieval returns: the data returned,
   * whether the retrieval ran, and the view afterwards.
   */
  function FetchSpec<Row>(v: CacheView<Row>, retrieved: Table<Row>): (res: (Table<Row>, bool, CacheView<Row>))
    ensures res.1 <==> !Probe(v)
    ensures res.1 ==> res.0 == retrieved && res.2 == CacheSpec(v, Some(retrieved)).1
    ensures !res.1 ==> Load(v) == Success(Some(res.0)) && res.2 == v
    ensures Probe(res.2)
  {
    if Probe(v) then (Load(v).value.value, false, v)
    else (retrieved, true, CacheSpec(v, Some(retrieved)).1)
  }

  /** The message the default stubs log, naming the method and the concrete class. */
  function NotImplementedMessage(methodName: string, typeName: string): string
  {
    "Sorry, the " + methodName + " method has not been implemented on " + typeName + "."
  }

  /** The working directory: relative path to the table pickled there. */
  class FileSystem<Row> {
    var files: map<string, Table<Row>>

    constructor (files: map<string, Table<Row>>)
      ensures this.files == files
    {
      this.files := files;
    }
  }

  class Connection<Row> {
    const purpose: Option<string>
    /** `type(self).__name__`: the name of the concrete subclass. */
    const typeName: string
    const persistCache: bool
    const logger: Logger
    const fs: FileSystem<Row>
    var slot: CacheSlot<Row>

    ghost predicate Valid()
      reads this
    {
      SlotMatchesMode(slot, persistCache)
    }

    ghost function View(): CacheView<Row>
      reads this, fs
    {
      CacheView(slot, fs.files)
    }

    /** Lines 100-111 of `__init__`, once the purpose check has passed. */
    constructor (purpose: Option<string>, persistCache: bool, typeName: string, logger: Logger, fs: FileSystem<Row>)
      requires logger.name == LoggerName
      ensures Valid()
      ensures this.purpose == purpose && this.persistCache == persistCache
      ensures this.typeName == typeName && this.logger == logger && this.fs == fs
      ensures slot == InitialSlot(persistCache)
    {
      this.purpose := purpose;
      this.typeName := typeName;
      this.logger := logger;
      this.fs := fs;
      this.persistCache := persistCache;
      slot := InitialSlot(persistCache);
    }

    /**
     * `__init__`: the purpose check, then the constructor. The defaults are the
     * source's: no purpose, a purpose not forced, an in-memory cache.
     */
    static method New(typeName: string, logger: Logger, fs: FileSystem<Row>, purpose: Option<string> := None,
                      nameonly forcePurpose: bool := false, nameonly persistCache: bool := false)
      returns (r: Result<Connection<Row>, ConfigError>)
      requires logger.name == LoggerName
      ensures r.Failure? <==> purpose.None? && forcePurpose
      ensures r.Failure? ==> r.error == ValueError(PurposeMessage)
      ensures r.Success? ==> fresh(r.value) && r.value.Valid()
      ensures r.Success? ==> r.value.purpose == purpose && r.value.persistCache == persistCache
      ensures r.Success? ==> r.value.typeName == typeName && r.value.logger == logger && r.value.fs == fs
      ensures r.Success? ==> r.value.slot == InitialSlot(persistCache)
    {
      var checked := CheckPurpose(purpose, forcePurpose);
      if checked.Failure? {
        return Failure(checked.error);
      }
      var c := new Connection(purpose, persistCache, typeName, logger, fs);
      return Success(c);
    }

    /** `cache(full_df)`: a probe when `fullDf` is None, a store otherwise. */
    method Cache(fullDf: Option<Table<Row>>) returns (loaded: bool)
      requires Valid()
      modifies this`slot, fs`files
      ensures Valid()
      ensures (loaded, View()) == CacheSpec(old(View()), fullDf)
    {
      if persistCache {
        if fullDf.None? {
          return slot.pickleFile in fs.files;
        }
        fs.files := fs.files[slot.pickleFile := fullDf.value];
        return true;
      } else {
        if fullDf.None? {
          return slot.cachedValues.Some?;
        }
        slot := InMemory(fullDf);
        return true;
      }
    }

    /** `load_cached_data()`. */
    method LoadCachedData() returns (r: Result<Option<Table<Row>>, StorageError>)
      requires Valid()
      ensures r == Load(View())
    {
      if persistCache {
        if slot.pickleFile in fs.files {
          r := Success(Some(fs.files[slot.pickleFile]));
        } else {
          r := Failure(FileNotFound(slot.pickleFile));
        }
      } else {
        r := Success(slot.cachedValues);
      }
    }

    /** The fetch idiom a subclass writes: probe, then load or retrieve and store. */
    method FetchThroughCache(retrieved: Table<Row>) returns (data: Table<Row>, didRetrieve: bool)
      requires Valid()
      modifies this`slot, fs`files
      ensures Valid()
      ensures (data, didRetrieve, View()) == FetchSpec(old(View()), retrieved)
    {
      var hit := Cache(None);
      if hit {
        var cached := LoadCachedData();
        return cached.value.value, false;
      }
      data, didRetrieve := retrieved, true;
      var _ := Cache(Some(data));
    }

    /** The default `preview()`: logs an error and returns an empty table. */
    method Preview() returns (t: Table<Row>)
      modifies logger`events
      ensures t == EmptyTable()
      ensures logger.events == old(logger.events) + [LogEvent(ERROR, NotImplementedMessage("preview", typeName))]
      ensures slot == old(slot) && fs.files == old(fs.files)
    {
      logger.Error(NotImplementedMessage("preview", typeName));
      t := EmptyTable();
    }

    /** The default `fetch()`: logs an error and returns an empty table. */
    method Fetch() returns (t: Table<Row>)
      modifies logger`events
      ensures t == EmptyTable()
      ensures logger.events == old(logger.events) + [LogEvent(ERROR, NotImplementedMessage("fetch", typeName))]
      ensures slot == old(slot) && fs.files == old(fs.files)
    {
      logger.Error(NotImplementedMessage("fetch", typeName));
      t := EmptyTable();
    }

    /** The default `validate(data)`: logs an error and returns two empty tables. */
    method Validate(data: Table<Row>) returns (parts: map<string, Table<Row>>)
      modifies logger`events
      ensures parts.Keys == {"valid", "invalid"}
      ensures parts["valid"] == EmptyTable() && parts["invalid"] == EmptyTable()
      ensures logger.events == old(logger.events) + [LogEvent(ERROR, NotImplementedMessage("validate", typeName))]
      ensures slot == old(slot) && fs.files == old(fs.files)
    {
      logger.Error(NotImplementedMessage("validate", typeName));
      parts := map["valid" := EmptyTable(), "invalid" := EmptyTable()];
    }
  }

  // ---------------------------------------------------------------------
  // Properties of the cache over several calls.

  /** A fresh in-memory connection probes False; a fresh persisted one probes whether the file exists. */
  lemma FreshProbe<Row>(persistCache: bool, files: map<string, Table<Row>>)
    ensures Probe(CacheView(InitialSlot<Row>(persistCache), files)) == (persistCache && PickleFile in files)
  {
  }

  /** After a store, a probe answers True and a load returns the stored table. */
  lemma StoreThenProbeAndLoad<Row>(v: CacheView<Row>, t: Table<Row>)
    ensures var (ok, w) := CacheSpec(v, Some(t));
            ok && CacheSpec(w, None) == (true, w) && Load(w) == Success(Some(t))
  {
  }

  /**
   * A table stored by one persisted connection is seen, by probe and by load,
   * by any other persisted connection on the same files.
   */
  lemma PersistedStoreIsShared<Row>(mine: CacheSlot<Row>, other: CacheSlot<Row>,
                                    files: map<string, Table<Row>>, t: Table<Row>)
    requires SlotMatchesMode(mine, true) && SlotMatchesMode(other, true)
    ensures var files' := CacheSpec(CacheView(mine, files), Some(t)).1.files;
            Probe(CacheView(other, files')) && Load(CacheView(other, files')) == Success(Some(t))
  {
  }

  /** Loading from a persisted connection whose file is absent fails with FileNotFound. */
  lemma LoadWithoutArtifactFails<Row>(files: map<string, Table<Row>>)
    requires PickleFile !in files
    ensures Load(CacheView(InitialSlot<Row>(true), files)) == Failure(FileNotFound(PickleFile))
  {
  }

  /** The mode chosen at construction survives any sequence of cache calls. */
  lemma {:induction false} ModeIsFixed<Row>(v: CacheView<Row>, persistCache: bool, calls: seq<Option<Table<Row>>>)
    requires SlotMatchesMode(v.slot, persistCache)
    ensures SlotMatchesMode(RunCache(v, calls).slot, persistCache)
    decreases |calls|
  {
    if calls != [] {
      ModeIsFixed(CacheSpec(v, calls[0]).1, persistCache, calls[1..]);
    }
  }

  /** The view after a sequence of `cache` calls. */
  function RunCache<Row>(v: CacheView<Row>, calls: seq<Option<Table<Row>>>): CacheView<Row>
    decreases |calls|
  {
    if calls == [] then v else RunCache(CacheSpec(v, calls[0]).1, calls[1..])
  }

  /**
   * The fetch idiom called twice: the first call retrieves exactly when the
   * cache was empty; the second returns the same data without retrieving and
   * changes nothing.
   */
  lemma FetchTwice<Row>(v: CacheView<Row>, first: Table<Row>, second: Table<Row>)
    ensures var (d1, r1, v1) := FetchSpec(v, first);
            var (d2, r2, v2) := FetchSpec(v1, second);
            (!Probe(v) ==> r1 && d1 == first) && !r2 && d2 == d1 && v2 == v1
  {
  }

  /** What a caller can prove from the method contracts alone: the persisted cache outlives the instance. */
  method PersistedCacheOutlivesInstance<Row>(fs: FileSystem<Row>, logger: Logger, t: Table<Row>)
    returns (seen: Result<Option<Table<Row>>, StorageError>)
    requires logger.name == LoggerName
    modifies fs`files
    ensures seen == Success(Some(t))
    ensures fs.files == old(fs.files)[PickleFile := t]
  {
    var first := Connection.New("ExampleConnection", logger, fs, Some("Creating a segmentation model."), persistCache := true);
    var writer := first.value;
    var stored := writer.Cache(Some(t));
    var second := Connection.New("ExampleConnection", logger, fs, persistCache := true);
    var reader := second.value;
    var hit := reader.Cache(None);
    assert hit;
    seen := reader.LoadCachedData();
  }
}
