/** The backend's model cache (backend/app/models/yolo_manager.py): a dictionary of loaded models
    guarded by the catalogue of available ids, filled on demand by a foreign loader. */
module YoloManager {
  import opened Common
  import Settings

  /** A loaded model object; `source` is the path or name it was constructed from. */
  datatype YoloModel = YoloModel(source: string, handle: nat)

  /** An `asyncio.Lock`; only its presence in `model_locks` is modelled. */
  datatype Lock = Lock

  /** What the foreign side does during one `_load_model` call: whether the weights file is
      already in the cache directory, what `YOLO(path_or_name)` yields (a model or a raised
      error message), and whether `model.save(path)` raises (`Some(message)`). */
  datatype Loader = Loader(fileExists: bool, construct: string -> Result<YoloModel, string>, saveError: Option<string>)

  datatype ManagerError = UnknownModel(id: string) | LoadFailed(message: string)

  /** One value of `get_loaded_models_info()`. */
  datatype LoadedInfo = LoadedInfo(name: string, filename: string, loaded: bool)

  /** `os.path.join(settings.model_cache_dir, filename)`. */
  function CachePath(filename: string): string
  {
    Settings.ModelCacheDir + "/" + filename
  }

  /** What `_load_model(id)` obtains for an available id: the cached weights when the file
      exists, otherwise a download by file name followed by a save into the cache. */
  function LoadOutcome(id: string, loader: Loader): (r: Result<YoloModel, string>)
    requires Settings.IsAvailable(id)
    ensures loader.fileExists ==> r == loader.construct(CachePath(Settings.Catalogue()[id].filename))
    ensures !loader.fileExists && r.Ok? ==>
      loader.saveError.None? && r == loader.construct(Settings.Catalogue()[id].filename)
    ensures !loader.fileExists ==>
      (r.Ok? <==> loader.construct(Settings.Catalogue()[id].filename).Ok? && loader.saveError.None?)
    ensures !loader.fileExists && loader.construct(Settings.Catalogue()[id].filename).Err? ==>
      r == loader.construct(Settings.Catalogue()[id].filename)
    ensures !loader.fileExists && loader.construct(Settings.Catalogue()[id].filename).Ok? && loader.saveError.Some? ==>
      r == Err(loader.saveError.value)
  {
    Settings.CatalogueKeys();
    var filename := Settings.Catalogue()[id].filename;
    if loader.fileExists then loader.construct(CachePath(filename))
    else
      match loader.construct(filename)
      case Err(e) => Err(e)
      case Ok(m) => if loader.saveError.Some? then Err(loader.saveError.value) else Ok(m)
  }

  /** What `get_model(id)` returns when the cache holds `cached`. */
  function GetModelOutcome(cached: map<string, YoloModel>, id: string, loader: Loader): (r: Result<YoloModel, ManagerError>)
    ensures r.Ok? ==> Settings.IsAvailable(id)
    ensures !Settings.IsAvailable(id) <==> r == Err(UnknownModel(id))
    ensures Settings.IsAvailable(id) && id in cached ==> r == Ok(cached[id])
    ensures Settings.IsAvailable(id) && id !in cached ==>
      && (r.Ok? <==> LoadOutcome(id, loader).Ok?)
      && (r.Ok? ==> r.value == LoadOutcome(id, loader).value)
      && (r.Err? ==> r == Err(LoadFailed(LoadOutcome(id, loader).error)))
  {
    if !Settings.IsAvailable(id) then Err(UnknownModel(id))
    else if id in cached then Ok(cached[id])
    else
      match LoadOutcome(id, loader)
      case Ok(m) => Ok(m)
      case Err(e) => Err(LoadFailed(e))
  }

  /** The cache after `get_model(id)`: only a successful fresh load adds an entry. */
  function CacheAfter(cached: map<string, YoloModel>, id: string, loader: Loader): (r: map<string, YoloModel>)
    ensures cached.Keys <= r.Keys && r.Keys <= cached.Keys + {id}
    ensures forall k :: k in cached ==> r[k] == cached[k]
    ensures GetModelOutcome(cached, id, loader).Ok? ==> id in r && r[id] == GetModelOutcome(cached, id, loader).value
    ensures id !in cached && id in r ==> GetModelOutcome(cached, id, loader).Ok?
  {
    if Settings.IsAvailable(id) && id !in cached && LoadOutcome(id, loader).Ok? then
      cached[id := LoadOutcome(id, loader).value]
    else cached
  }

  /** The lock table after `get_model(id)`: an available id that was not cached gets a lock. */
  function LocksAfter(locks: map<string, Lock>, cached: map<string, YoloModel>, id: string): (r: map<string, Lock>)
    ensures locks.Keys <= r.Keys && r.Keys <= locks.Keys + {id}
    ensures id in r <==> id in locks || (Settings.IsAvailable(id) && id !in cached)
  {
    if Settings.IsAvailable(id) && id !in cached then locks[id := Lock] else locks
  }

  /** The text `str(e)` gives for a `get_model` failure. */
  function ErrorMessage(e: ManagerError): string
  {
    match e
    case UnknownModel(id) => "Unknown model: " + id
    case LoadFailed(message) => message
  }

  /** The entry `get_loaded_models_info` builds for one loaded id: catalogue name and file name,
      defaulting to the id and to "" for an id missing from the catalogue. */
  function InfoFor(id: string): (r: LoadedInfo)
    ensures r.loaded
    ensures id !in Settings.Catalogue() ==> r.name == id && r.filename == ""
  {
    var cat := Settings.Catalogue();
    LoadedInfo(if id in cat then cat[id].name else id, if id in cat then cat[id].filename else "", true)
  }

  class ModelManager {
    var loadedModels: map<string, YoloModel>
    var modelLocks: map<string, Lock>

    /** Only catalogue ids are ever cached, and every cached id has a lock entry
        (the lock is created before the load is attempted). */
    ghost predicate Valid()
      reads this
    {
      && loadedModels.Keys <= modelLocks.Keys
      && modelLocks.Keys <= Settings.ModelIds()
    }

    constructor ()
      ensures Valid()
      ensures loadedModels == map[] && modelLocks == map[]
    {
      loadedModels := map[];
      modelLocks := map[];
    }

    /** `_load_model(id)`: the model is stored only after it was obtained without error. */
    method LoadModel(id: string, loader: Loader) returns (r: Result<YoloModel, string>)
      requires Valid() && Settings.IsAvailable(id) && id in modelLocks
      modifies this
      ensures Valid()
      ensures r == LoadOutcome(id, loader)
      ensures modelLocks == old(modelLocks)
      ensures r.Ok? ==> loadedModels == old(loadedModels)[id := r.value]
      ensures r.Err? ==> loadedModels == old(loadedModels)
    {
      r := LoadOutcome(id, loader);
      if r.Ok? {
        loadedModels := loadedModels[id := r.value];
      }
    }

    /** `get_model(id)`: refuse unknown ids, return a cached model without loading, otherwise
        create the lock entry and load. */
    method GetModel(id: string, loader: Loader) returns (r: Result<YoloModel, ManagerError>)
      requires Valid()
      modifies this
      ensures Valid()
      ensures !Settings.IsAvailable(id) ==>
        r == Err(UnknownModel(id)) && loadedModels == old(loadedModels) && modelLocks == old(modelLocks)
      ensures Settings.IsAvailable(id) && id in old(loadedModels) ==>
        r == Ok(old(loadedModels)[id]) && loadedModels == old(loadedModels) && modelLocks == old(modelLocks)
      ensures Settings.IsAvailable(id) && id !in old(loadedModels) ==>
        && modelLocks == old(modelLocks)[id := Lock]
        && (LoadOutcome(id, loader).Ok? ==>
              r == Ok(LoadOutcome(id, loader).value) && loadedModels == old(loadedModels)[id := r.value])
        && (LoadOutcome(id, loader).Err? ==>
              r == Err(LoadFailed(LoadOutcome(id, loader).error)) && loadedModels == old(loadedModels))
      ensures r.Ok? ==> id in loadedModels && loadedModels[id] == r.value
      ensures r == GetModelOutcome(old(loadedModels), id, loader)
      ensures loadedModels == CacheAfter(old(loadedModels), id, loader)
      ensures modelLocks == LocksAfter(old(modelLocks), old(loadedModels), id)
    {
      if !Settings.IsAvailable(id) {
        return Err(UnknownModel(id));
      }
      if id in loadedModels {
        return Ok(loadedModels[id]);
      }
      if id !in modelLocks {
        modelLocks := modelLocks[id := Lock];
      } else {
        assert modelLocks[id].Lock?;
        assert modelLocks == modelLocks[id := Lock];
      }
      var loaded := LoadModel(id, loader);
      if loaded.Err? {
        return Err(LoadFailed(loaded.error));
      }
      return Ok(loadedModels[id]);
    }

    /** `unload_model(id)`: drops a loaded id from both dictionaries; an id that is not loaded
        leaves both untouched (even a lock left by a failed load). */
    method UnloadModel(id: string)
      requires Valid()
      modifies this
      ensures Valid()
      ensures loadedModels == old(loadedModels) - {id}
      ensures modelLocks == if id in old(loadedModels) then old(modelLocks) - {id} else old(modelLocks)
    {
      if id in loadedModels {
        loadedModels := loadedModels - {id};
        if id in modelLocks {
          modelLocks := modelLocks - {id};
        }
      }
    }

    /** `clear_cache()`. */
    method ClearCache()
      requires Valid()
      modifies this
      ensures Valid()
      ensures loadedModels == map[] && modelLocks == map[]
    {
      loadedModels := map[];
      modelLocks := map[];
    }

    /** `get_loaded_models_info()`: one entry per loaded id, built by iterating the cache. */
    method GetLoadedModelsInfo() returns (info: map<string, LoadedInfo>)
      ensures info.Keys == loadedModels.Keys
      ensures forall id :: id in info ==> info[id] == InfoFor(id)
    {
      info := map[];
      var remaining := loadedModels.Keys;
      while remaining != {}
        invariant remaining <= loadedModels.Keys
        invariant info.Keys == loadedModels.Keys - remaining
        invariant forall id :: id in info ==> info[id] == InfoFor(id)
        decreases remaining
      {
        var id :| id in remaining;
        info := info[id := InfoFor(id)];
        remaining := remaining - {id};
      }
    }
  }

  /** Under the cache invariant every reported entry carries the catalogue name and file name. */
  lemma LoadedInfoUsesCatalogue(m: ModelManager, id: string)
    requires m.Valid() && id in m.loadedModels
    ensures id in Settings.Catalogue()
    ensures InfoFor(id) == LoadedInfo(Settings.Catalogue()[id].name, Settings.Catalogue()[id].filename, true)
  {
    Settings.CatalogueKeys();
  }
}
