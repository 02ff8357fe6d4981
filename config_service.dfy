/**
 * The backend's configuration service (src/backend/services/config_service.py):
 * loading with a fallback to the last good configuration and then to the
 * defaults, saving, and merging a partial update into the "main" section.
 * Reading and writing the TOML file are parameters: the parsed file, or None
 * when toml.load raised, and whether the write succeeded.
 *
 * load_config hands back the cached dictionary itself, and update_config edits
 * its "main" section in place, so the cache sees those edits even when the
 * update does not reach save_config; the model spells that sharing out.
 */
module ConfigService {
  import opened Wrappers
  import opened Settings

  /** The whole document: section name to section. */
  type Config = map<string, Section>

  /** The update body as models/schemas.py declares it: four optional fields. */
  datatype DeclaredUpdate = DeclaredUpdate(
    address: Option<string>,
    searchRadiusMeters: Option<int>,
    maxFlights: Option<int>,
    maxElapsedTime: Option<int>)

  /** The update body update_config expects: the declared fields and display_fields. */
  datatype ConfigUpdate = ConfigUpdate(
    address: Option<string>,
    searchRadiusMeters: Option<int>,
    maxFlights: Option<int>,
    maxElapsedTime: Option<int>,
    displayFields: Option<seq<string>>)

  /** The declared body seen through update_config's eyes, without display fields. */
  function Widen(u: DeclaredUpdate): ConfigUpdate {
    ConfigUpdate(u.address, u.searchRadiusMeters, u.maxFlights, u.maxElapsedTime, None)
  }

  /** The range constraints of ConfigUpdate's Field(ge, le) declarations. */
  predicate WithinDeclaredBounds(u: DeclaredUpdate) {
    (u.searchRadiusMeters.Some? ==> 100 <= u.searchRadiusMeters.value <= 50000)
    && (u.maxFlights.Some? ==> 1 <= u.maxFlights.value <= 100)
    && (u.maxElapsedTime.Some? ==> 60 <= u.maxElapsedTime.value <= 7200)
  }

  /** The keys of the fields an update provides. */
  function ProvidedKeys(u: ConfigUpdate): set<string> {
    (if u.address.Some? then {"address"} else {})
    + (if u.searchRadiusMeters.Some? then {"search_radius_meters"} else {})
    + (if u.maxFlights.Some? then {"max_flights"} else {})
    + (if u.maxElapsedTime.Some? then {"max_elapsed_time"} else {})
    + (if u.displayFields.Some? then {"display_fields"} else {})
  }

  /** The `updates` dictionary: one entry per field that is not None, holding the new value. */
  function Updates(u: ConfigUpdate): (r: Section)
    ensures r.Keys == ProvidedKeys(u)
    ensures u.address.Some? ==> r["address"] == Text(u.address.value)
    ensures u.searchRadiusMeters.Some? ==> r["search_radius_meters"] == Number(u.searchRadiusMeters.value)
    ensures u.maxFlights.Some? ==> r["max_flights"] == Number(u.maxFlights.value)
    ensures u.maxElapsedTime.Some? ==> r["max_elapsed_time"] == Number(u.maxElapsedTime.value)
    ensures u.displayFields.Some? ==> r["display_fields"] == TextList(u.displayFields.value)
  {
    var e: Section := map[];
    var a := if u.address.Some? then e["address" := Text(u.address.value)] else e;
    var b := if u.searchRadiusMeters.Some? then a["search_radius_meters" := Number(u.searchRadiusMeters.value)] else a;
    var c := if u.maxFlights.Some? then b["max_flights" := Number(u.maxFlights.value)] else b;
    var d := if u.maxElapsedTime.Some? then c["max_elapsed_time" := Number(u.maxElapsedTime.value)] else c;
    if u.displayFields.Some? then d["display_fields" := TextList(u.displayFields.value)] else d
  }

  /** config.get("main", {}) */
  function MainOf(config: Config): Section {
    if "main" in config then config["main"] else map[]
  }

  /** What the corrected update_config makes of a configuration. */
  function Merged(config: Config, u: ConfigUpdate): Config {
    config["main" := MainOf(config) + Updates(u)]
  }

  /**
   * The merge overwrites in "main" exactly the provided fields, reports each of
   * them with its new value, and leaves every other key and section alone.
   */
  lemma MergedProperties(config: Config, u: ConfigUpdate)
    ensures var m := Merged(config, u);
      "main" in m && m.Keys == config.Keys + {"main"}
      && (forall s :: s in config && s != "main" ==> m[s] == config[s])
      && (forall k :: k in ProvidedKeys(u) ==> m["main"][k] == Updates(u)[k])
      && (forall k :: k in MainOf(config) && k !in ProvidedKeys(u) ==> m["main"][k] == MainOf(config)[k])
      && m["main"].Keys == MainOf(config).Keys + ProvidedKeys(u)
  {
  }

  /** An update that provides nothing changes nothing, once a "main" section exists. */
  lemma EmptyUpdateChangesNothing(config: Config)
    requires "main" in config
    ensures Merged(config, ConfigUpdate(None, None, None, None, None)) == config
  {
    var u := ConfigUpdate(None, None, None, None, None);
    assert Updates(u) == map[];
    assert MainOf(config) + Updates(u) == config["main"];
  }

  /** Merging the same update twice is the same as merging it once. */
  lemma MergedIdempotent(config: Config, u: ConfigUpdate)
    ensures Merged(Merged(config, u), u) == Merged(config, u)
  {
    var m := Merged(config, u);
    assert MainOf(m) == MainOf(config) + Updates(u);
    assert MainOf(m) + Updates(u) == MainOf(config) + Updates(u);
  }

  /** `if self._cache:` — a cached, non-empty configuration. */
  predicate CacheUsable(cache: Option<Config>) {
    cache.Some? && cache.value != map[]
  }

  function DefaultConfig(): Config {
    map[
      "main" := map[
        "address" := Text("San Francisco, CA"),
        "search_radius_meters" := Number(3000),
        "max_flights" := Number(20),
        "max_elapsed_time" := Number(1800),
        "display_fields" := TextList(["FROM", "AIRLINE", "MODEL", "REG", "ROUTE"])],
      "logging" := map[
        "max_activities" := Number(500),
        "categories" := TextList(["SYSTEM", "RADAR", "FLIGHT", "CONFIG", "ERROR", "INFO"])]]
  }

  /** Read through config.get with any fallback, the default "main" section gives its five settings. */
  lemma DefaultMainSettings(fallbackText: string, fallbackNumber: int)
    ensures var main := DefaultConfig()["main"];
      TextOr(main, "address", fallbackText) == "San Francisco, CA"
      && NumberOr(main, "search_radius_meters", fallbackNumber) == 3000
      && NumberOr(main, "max_flights", fallbackNumber) == 20
      && NumberOr(main, "max_elapsed_time", fallbackNumber) == 1800
      && main["display_fields"] == TextList(["FROM", "AIRLINE", "MODEL", "REG", "ROUTE"])
      && |main["display_fields"].items| == 5
  {
  }

  /** What load_config returns: the file's contents, else the usable cache, else the defaults. */
  function Loaded(file: Option<Config>, cache: Option<Config>): (c: Config)
    ensures file.Some? ==> c == file.value
    ensures file.None? && CacheUsable(cache) ==> c == cache.value
    ensures file.None? && !CacheUsable(cache) ==> c == DefaultConfig()
  {
    if file.Some? then file.value else if CacheUsable(cache) then cache.value else DefaultConfig()
  }

  /** Whether load_config handed back the very dictionary the cache holds afterwards. */
  predicate SharedWithCache(file: Option<Config>, cache: Option<Config>) {
    file.Some? || CacheUsable(cache)
  }

  class ConfigService {
    var cache: Option<Config>

    constructor ()
      ensures cache == None
    {
      cache := None;
    }

    /** load_config: a readable file replaces the cache; otherwise the cache, if usable, or the defaults. */
    method LoadConfig(file: Option<Config>) returns (c: Config)
      modifies this`cache
      ensures c == Loaded(file, old(cache))
      ensures file.Some? ==> cache == file
      ensures file.None? ==> cache == old(cache)
      ensures SharedWithCache(file, old(cache)) ==> cache == Some(c)
    {
      if file.Some? {
        cache := file;
        return file.value;
      }
      if cache.Some? && cache.value != map[] {
        return cache.value;
      }
      return DefaultConfig();
    }

    /** save_config: a successful write caches what was written; a failed one raises and caches nothing. */
    method SaveConfig(config: Config, writeOk: bool) returns (r: Result<()>)
      modifies this`cache
      ensures writeOk ==> r.Ok? && cache == Some(config)
      ensures !writeOk ==> r.Err? && cache == old(cache)
    {
      if !writeOk {
        return Err("could not write the configuration file");
      }
      cache := Some(config);
      return Ok(());
    }

    /**
     * update_config as written: lines 63-77 edit "main" in place, then reading
     * config_update.display_fields raises AttributeError, because the declared
     * body has no such field. Nothing is saved, yet when "main" existed in a
     * dictionary shared with the cache, the cache already holds the edits.
     */
    method UpdateConfigAsWritten(u: DeclaredUpdate, file: Option<Config>) returns (r: Result<(Config, Section)>)
      modifies this`cache
      ensures r == Err("'ConfigUpdate' object has no attribute 'display_fields'")
      ensures var c := Loaded(file, old(cache));
        if SharedWithCache(file, old(cache)) && "main" in c
        then cache == Some(c["main" := c["main"] + Updates(Widen(u))])
        else cache == (if file.Some? then file else old(cache))
    {
      var before := cache;
      var config := LoadConfig(file);
      if "main" in config && SharedWithCache(file, before) {
        cache := Some(config["main" := config["main"] + Updates(Widen(u))]);
      }
      return Err("'ConfigUpdate' object has no attribute 'display_fields'");
    }

    /**
     * update_config with display_fields declared: merges the provided fields
     * into "main", saves, and returns the configuration and the updates. A
     * failed save raises, though a shared cache has already taken the merge.
     */
    method UpdateConfig(u: ConfigUpdate, file: Option<Config>, writeOk: bool) returns (r: Result<(Config, Section)>)
      modifies this`cache
      ensures var merged := Merged(Loaded(file, old(cache)), u);
        (writeOk ==> r == Ok((merged, Updates(u))) && cache == Some(merged))
        && (!writeOk ==>
              r.Err?
              && cache == (if SharedWithCache(file, old(cache)) then Some(merged) else old(cache)))
    {
      var before := cache;
      var config := LoadConfig(file);
      var main, updates := MergeMain(MainOf(config), u);
      config := config["main" := main];
      if SharedWithCache(file, before) {
        cache := Some(config);
      }
      var saved := SaveConfig(config, writeOk);
      if saved.Err? {
        return Err(saved.message);
      }
      return Ok((config, updates));
    }
  }

  /** Lines 61-81: each provided field overwrites its key in "main" and is recorded in `updates`. */
  method MergeMain(main: Section, u: ConfigUpdate) returns (newMain: Section, updates: Section)
    ensures newMain == main + Updates(u) && updates == Updates(u)
  {
    newMain := main;
    updates := map[];
    assert newMain == main + updates;
    if u.address.Some? {
      newMain, updates := Provide(main, newMain, updates, "address", Text(u.address.value));
    }
    if u.searchRadiusMeters.Some? {
      newMain, updates := Provide(main, newMain, updates, "search_radius_meters", Number(u.searchRadiusMeters.value));
    }
    if u.maxFlights.Some? {
      newMain, updates := Provide(main, newMain, updates, "max_flights", Number(u.maxFlights.value));
    }
    if u.maxElapsedTime.Some? {
      newMain, updates := Provide(main, newMain, updates, "max_elapsed_time", Number(u.maxElapsedTime.value));
    }
    if u.displayFields.Some? {
      newMain, updates := Provide(main, newMain, updates, "display_fields", TextList(u.displayFields.value));
    }
  }

  /** One provided field: written into "main" and recorded in `updates`. */
  method Provide(main: Section, newMain: Section, updates: Section, key: string, v: Setting) returns (newMain': Section, updates': Section)
    requires newMain == main + updates
    ensures updates' == updates[key := v] && newMain' == main + updates'
  {
    newMain' := newMain[key := v];
    updates' := updates[key := v];
  }

  /**
   * The discrepancy on a concrete input: with the file readable and holding a
   * "main" section, the as-written update of max_flights to 10 leaves the cache
   * saying 10 while the file, never rewritten, still says 20. The corrected
   * merge reports the update and writes the same 10 it caches.
   */
  lemma AsWrittenCacheDivergesFromFile()
    ensures var file: Config := map["main" := map["max_flights" := Number(20)]];
      var u := DeclaredUpdate(None, None, Some(10), None);
      WithinDeclaredBounds(u)
      && Loaded(Some(file), None)["main" := Loaded(Some(file), None)["main"] + Updates(Widen(u))]["main"]["max_flights"] == Number(10)
      && file["main"]["max_flights"] == Number(20)
      && Merged(file, Widen(u))["main"]["max_flights"] == Number(10)
      && Updates(Widen(u)) == map["max_flights" := Number(10)]
  {
    var u := DeclaredUpdate(None, None, Some(10), None);
    assert ProvidedKeys(Widen(u)) == {"max_flights"};
  }

  /** The route clears the geocoding cache exactly when the reported updates name the address. */
  lemma AddressChangeReported(u: ConfigUpdate)
    ensures "address" in Updates(u) <==> u.address.Some?
  {
  }
}
