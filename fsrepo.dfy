/**
 * The file-system repository (modules/repo/fsrepo/fsrepo.go): a root
 * directory holding config.json and a datastore directory. Opened
 * repositories are shared through a reference-counted opener, and the
 * last Close releases the key-value store and the datastore.
 * The file system is the `Disk` object; I/O failures are parameters.
 */
module FsRepo {
  import opened Wrappers
  import opened JsonConf
  import Datastore

  const ErrAlreadyInit := "already initialized"
  const ErrNotInit := "not initialized"
  const ErrNoRoot := "root path not specified"
  const ErrConfigAbsent := "config is absent"

  function DatastorePath(root: string): string { Datastore.Join(root, "datastore") }

  /** The directories and config.json files that exist, config files by repository root. */
  class Disk {
    var dirs: set<string>
    var configs: map<string, map<string, Json>>

    constructor (dirs: set<string>, configs: map<string, map<string, Json>>)
      ensures this.dirs == dirs && this.configs == configs
    {
      this.dirs := dirs;
      this.configs := configs;
    }

    /** isInitialized: the repository's config.json exists. */
    predicate IsInitialized(path: string)
      reads this
    {
      path in configs
    }
  }

  /** Environment outcomes of Init: directory creation, key generation, writing the config file. */
  datatype InitEnv = InitEnv(mkdirErr: Option<string>, identity: Result<(string, string)>, writeErr: Option<string>)

  /** Environment outcomes of open: creating a missing datastore directory, opening the mounts. */
  datatype OpenEnv = OpenEnv(dsMkdirErr: Option<string>, ds: Datastore.DsEnv)

  /** The identity entry written by initIdentity: the encoded private key and the peer ID. */
  function IdentityEntry(privKey: string, id: string): Json
  {
    JObj(map["PrivKey" := JStr(privKey), "ID" := JStr(id)])
  }

  /** Whether Get("Identity") into a map target succeeds. */
  function HasIdentity(entries: map<string, Json>): (r: bool)
    ensures r <==> "Identity" in entries && (entries["Identity"].JObj? || entries["Identity"].JNull?)
  {
    match Lookup(entries, "Identity")
    case Some(JObj(_)) => true
    case Some(JNull) => true
    case _ => false
  }

  /** The error Init returns for a path that is not yet initialized, or None when it succeeds. */
  function InitError(entries: map<string, Json>, env: InitEnv): (r: Option<string>)
    ensures r.None? <==> env.mkdirErr.None? && (HasIdentity(entries) || env.identity.Ok?) && env.writeErr.None?
    ensures env.mkdirErr.Some? ==> r == Some("failed creating directories " + env.mkdirErr.value)
    ensures r.Some? && env.mkdirErr.None? && (HasIdentity(entries) || env.identity.Ok?) ==> r == Some("failed creating config " + env.writeErr.value)
  {
    if env.mkdirErr.Some? then Some("failed creating directories " + env.mkdirErr.value)
    else if !HasIdentity(entries) && env.identity.Err? then Some("failed creating identity " + env.identity.error)
    else if env.writeErr.Some? then Some("failed creating config " + env.writeErr.value)
    else None
  }

  /**
   * Init: refuse an initialized path, create the directories, generate an
   * identity only when the configuration has none, and write config.json.
   */
  method Init(disk: Disk, path: string, c: Config, env: InitEnv) returns (err: Option<string>)
    modifies disk, c
    ensures err.None? ==> disk.IsInitialized(path) && disk.configs[path] == c.entries
    ensures !old(disk.IsInitialized(path)) ==> err == InitError(old(c.entries), env)
    ensures old(disk.IsInitialized(path)) ==> err == Some(ErrAlreadyInit) && disk.configs == old(disk.configs) && disk.dirs == old(disk.dirs) && c.entries == old(c.entries)
    ensures !old(disk.IsInitialized(path)) && env.mkdirErr.Some? ==>
      err == Some("failed creating directories " + env.mkdirErr.value) && disk.configs == old(disk.configs) && c.entries == old(c.entries)
    ensures !old(disk.IsInitialized(path)) && env.mkdirErr.None? ==>
      disk.dirs == old(disk.dirs) + {path, DatastorePath(path)} &&
      (HasIdentity(old(c.entries)) ==> c.entries == old(c.entries)) &&
      (!HasIdentity(old(c.entries)) && env.identity.Err? ==>
        err == Some("failed creating identity " + env.identity.error) && c.entries == old(c.entries) && disk.configs == old(disk.configs)) &&
      (!HasIdentity(old(c.entries)) && env.identity.Ok? ==>
        c.entries == old(c.entries)["Identity" := IdentityEntry(env.identity.value.0, env.identity.value.1)]) &&
      (HasIdentity(old(c.entries)) || env.identity.Ok? ==>
        (env.writeErr.Some? ==> err == Some("failed creating config " + env.writeErr.value) && disk.configs == old(disk.configs)) &&
        (env.writeErr.None? ==> err.None? && disk.configs == old(disk.configs)[path := c.entries]))
  {
    if disk.IsInitialized(path) {
      return Some(ErrAlreadyInit);
    }
    if env.mkdirErr.Some? {
      return Some("failed creating directories " + env.mkdirErr.value);
    }
    disk.dirs := disk.dirs + {path, DatastorePath(path)};
    if !HasIdentity(c.entries) {
      if env.identity.Err? {
        return Some("failed creating identity " + env.identity.error);
      }
      c.Set("Identity", IdentityEntry(env.identity.value.0, env.identity.value.1));
    }
    if env.writeErr.Some? {
      return Some("failed creating config " + env.writeErr.value);
    }
    disk.configs := disk.configs[path := c.entries];
    return None;
  }

  /** An open repository: its configuration and the stores it holds open. */
  class Repo {
    const path: string
    const cfg: Config
    /** rootDS: the mounted datastore, absent when it was only just created. */
    var rootDS: Option<Datastore.MountedDs>
    /** kvStore != nil */
    var kvStore: bool

    constructor (path: string, cfg: Config, rootDS: Option<Datastore.MountedDs>)
      ensures this.path == path && this.cfg == cfg && this.rootDS == rootDS && kvStore
    {
      this.path := path;
      this.cfg := cfg;
      this.rootDS := rootDS;
      kvStore := true;
    }

    /**
     * close: close whichever stores are open, collect their errors in order
     * (an empty list is a nil error), and drop both stores.
     */
    method CloseStores(kvErr: Option<string>, dsErr: Option<string>) returns (errs: seq<string>)
      modifies this
      ensures !kvStore && rootDS.None?
      ensures errs == CloseErrors(old(kvStore), old(rootDS.Some?), kvErr, dsErr)
    {
      errs := [];
      if kvStore && kvErr.Some? {
        errs := errs + [kvErr.value];
      }
      if rootDS.Some? && dsErr.Some? {
        errs := errs + [dsErr.value];
      }
      kvStore := false;
      rootDS := None;
    }
  }

  /** The errors close aggregates: a store's close error counts only if that store was open. */
  function CloseErrors(kvOpen: bool, dsOpen: bool, kvErr: Option<string>, dsErr: Option<string>): (r: seq<string>)
    ensures r == [] <==> (kvOpen ==> kvErr.None?) && (dsOpen ==> dsErr.None?)
    ensures |r| <= 2
  {
    (if kvOpen && kvErr.Some? then [kvErr.value] else []) + (if dsOpen && dsErr.Some? then [dsErr.value] else [])
  }

  /**
   * When open succeeds: config.json exists, and either the datastore
   * directory is missing and can be created, or every mount opens.
   */
  ghost predicate OpenRepoSucceeds(configs: map<string, map<string, Json>>, dirs: set<string>, path: string, env: OpenEnv)
  {
    path in configs &&
    (DatastorePath(path) !in dirs ==> env.dsMkdirErr.None?) &&
    (DatastorePath(path) in dirs ==> Datastore.AllOpen(Datastore.EntryOpener(path, Datastore.MountEntries(configs[path]), env.ds)))
  }

  /**
   * open: read config.json, then the datastore (creating its directory
   * instead when it is missing, and then leaving rootDS unset), then wrap
   * the key-value store.
   */
  method OpenRepo(disk: Disk, path: string, env: OpenEnv) returns (r: Result<Repo>)
    modifies disk
    ensures path !in old(disk.configs) ==> r == Err("failed opening config " + ErrConfigAbsent) && disk.dirs == old(disk.dirs)
    ensures disk.configs == old(disk.configs)
    ensures path in old(disk.configs) && DatastorePath(path) !in old(disk.dirs) ==>
      (env.dsMkdirErr.Some? ==> r == Err("failed opening datastore " + env.dsMkdirErr.value) && disk.dirs == old(disk.dirs)) &&
      (env.dsMkdirErr.None? ==> r.Ok? && r.value.rootDS.None? && disk.dirs == old(disk.dirs) + {DatastorePath(path)})
    ensures path in old(disk.configs) && DatastorePath(path) in old(disk.dirs) ==> (disk.dirs == old(disk.dirs) &&
      (r.Ok? <==> Datastore.AllOpen(Datastore.EntryOpener(path, Datastore.MountEntries(old(disk.configs)[path]), env.ds))) &&
      (r.Ok? ==> r.value.rootDS.Some?))
    ensures r.Ok? ==> fresh(r.value) && r.value.path == path && r.value.kvStore && r.value.cfg.entries == old(disk.configs)[path]
    ensures r.Ok? <==> OpenRepoSucceeds(old(disk.configs), old(disk.dirs), path, env)
  {
    if path !in disk.configs {
      return Err("failed opening config " + ErrConfigAbsent);
    }
    var cfg := new Config.FromFile(disk.configs[path]);
    var rootDS: Option<Datastore.MountedDs> := None;
    if DatastorePath(path) !in disk.dirs {
      if env.dsMkdirErr.Some? {
        return Err("failed opening datastore " + env.dsMkdirErr.value);
      }
      disk.dirs := disk.dirs + {DatastorePath(path)};
    } else {
      var ds, closed := Datastore.OpenDatastoreFromCfg(path, cfg.entries, env.ds);
      if ds.Err? {
        return Err("failed opening datastore " + ds.error);
      }
      rootDS := Some(ds.value);
    }
    var repo := new Repo(path, cfg, rootDS);
    return Ok(repo);
  }

  datatype ActiveRepo = ActiveRepo(active: Repo, refCnt: int)

  /** The package-wide opener: every open path with its shared repository and reference count. */
  class RepoOpener {
    var activeMap: map<string, ActiveRepo>

    ghost predicate Valid()
      reads this
    {
      forall p :: p in activeMap ==> activeMap[p].refCnt >= 1 && activeMap[p].active.path == p
    }

    constructor ()
      ensures Valid() && activeMap == map[]
    {
      activeMap := map[];
    }

    /**
     * Open: an active path gains a reference and yields the same repository;
     * otherwise the path is opened and recorded with one reference.
     */
    method Open(disk: Disk, path: string, env: OpenEnv) returns (r: Result<Repo>)
      requires Valid()
      modifies this, disk
      ensures Valid()
      ensures path in old(activeMap) ==>
        r == Ok(old(activeMap)[path].active) &&
        activeMap == old(activeMap)[path := ActiveRepo(old(activeMap)[path].active, old(activeMap)[path].refCnt + 1)] &&
        unchanged(disk)
      ensures disk.configs == old(disk.configs)
      ensures r.Ok? ==> path in activeMap && activeMap[path].active == r.value
      ensures path !in old(activeMap) && r.Err? ==> activeMap == old(activeMap)
      ensures path !in old(activeMap) && r.Ok? ==> fresh(r.value) && activeMap == old(activeMap)[path := ActiveRepo(r.value, 1)]
      ensures r.Ok? <==> path in old(activeMap) || OpenRepoSucceeds(old(disk.configs), old(disk.dirs), path, env)
    {
      if path in activeMap {
        var ar := activeMap[path];
        activeMap := activeMap[path := ActiveRepo(ar.active, ar.refCnt + 1)];
        return Ok(ar.active);
      }
      r := OpenRepo(disk, path, env);
      if r.Ok? {
        activeMap := activeMap[path := ActiveRepo(r.value, 1)];
      }
    }

    /**
     * Close: drop one reference; the last one removes the entry and closes
     * the repository's stores. An unknown path is a no-op.
     */
    method Close(path: string, kvErr: Option<string>, dsErr: Option<string>) returns (errs: seq<string>)
      requires Valid()
      modifies this, (if path in activeMap then {activeMap[path].active} else {})
      ensures Valid()
      ensures path !in old(activeMap) ==> errs == [] && activeMap == old(activeMap)
      ensures path in old(activeMap) && old(activeMap)[path].refCnt > 1 ==> (errs == [] &&
        activeMap == old(activeMap)[path := ActiveRepo(old(activeMap)[path].active, old(activeMap)[path].refCnt - 1)])
      ensures path in old(activeMap) && old(activeMap)[path].refCnt <= 1 ==>
        var repo := old(activeMap)[path].active;
        activeMap == old(activeMap) - {path} && !repo.kvStore && repo.rootDS.None? &&
        errs == CloseErrors(old(repo.kvStore), old(repo.rootDS.Some?), kvErr, dsErr)
    {
      if path !in activeMap {
        return [];
      }
      var ar := activeMap[path];
      if ar.refCnt - 1 > 0 {
        activeMap := activeMap[path := ActiveRepo(ar.active, ar.refCnt - 1)];
        return [];
      }
      activeMap := activeMap - {path};
      errs := ar.active.CloseStores(kvErr, dsErr);
    }
  }

  /** The exported Open: an uninitialized path fails before the opener is consulted. */
  method Open(opener: RepoOpener, disk: Disk, path: string, env: OpenEnv) returns (r: Result<Repo>)
    requires opener.Valid()
    modifies opener, disk
    ensures opener.Valid()
    ensures !old(disk.IsInitialized(path)) ==> r == Err(ErrNotInit) && unchanged(opener) && unchanged(disk)
    ensures disk.configs == old(disk.configs)
    ensures r.Ok? ==> disk.IsInitialized(path) && path in opener.activeMap && opener.activeMap[path].active == r.value
    ensures old(disk.IsInitialized(path)) && path in old(opener.activeMap) ==> r == Ok(old(opener.activeMap)[path].active)
    ensures old(disk.IsInitialized(path)) && path !in old(opener.activeMap) && r.Ok? ==>
      opener.activeMap == old(opener.activeMap)[path := ActiveRepo(r.value, 1)]
    ensures old(disk.IsInitialized(path)) ==>
      (r.Ok? <==> path in old(opener.activeMap) || OpenRepoSucceeds(old(disk.configs), old(disk.dirs), path, env))
  {
    if !disk.IsInitialized(path) {
      return Err(ErrNotInit);
    }
    r := opener.Open(disk, path, env);
  }

  /**
   * CreateOrOpen: the configuration must name RootPath; an uninitialized
   * root is initialized first, and Init's error is returned as is; the
   * root is then opened. An initialized root is opened directly, with the
   * configuration untouched.
   */
  method CreateOrOpen(opener: RepoOpener, disk: Disk, c: Config, initEnv: InitEnv, openEnv: OpenEnv) returns (r: Result<Repo>)
    requires opener.Valid()
    modifies opener, disk, c
    ensures opener.Valid()
    ensures Lookup(old(c.entries), "RootPath").None? || DecodeString(old(c.entries)["RootPath"], "").None? ==>
      r == Err(ErrNoRoot) && unchanged(opener) && unchanged(disk)
    ensures r.Ok? ==> var path := DecodeString(old(c.entries)["RootPath"], "").value;
      "RootPath" in old(c.entries) && disk.IsInitialized(path) && path in opener.activeMap && opener.activeMap[path].active == r.value
    ensures "RootPath" in old(c.entries) && DecodeString(old(c.entries)["RootPath"], "").Some? ==>
      var path := DecodeString(old(c.entries)["RootPath"], "").value;
      (old(disk.IsInitialized(path)) ==> (
        c.entries == old(c.entries) &&
        (r.Ok? <==> path in old(opener.activeMap) || OpenRepoSucceeds(old(disk.configs), old(disk.dirs), path, openEnv)) &&
        (path in old(opener.activeMap) ==> r == Ok(old(opener.activeMap)[path].active)))) &&
      (!old(disk.IsInitialized(path)) && InitError(old(c.entries), initEnv).Some? ==> (
        r == Err(InitError(old(c.entries), initEnv).value) && unchanged(opener))) &&
      (!old(disk.IsInitialized(path)) && InitError(old(c.entries), initEnv).None? ==> (
        disk.configs == old(disk.configs)[path := c.entries] &&
        (r.Ok? <==> (path in old(opener.activeMap) ||
          Datastore.AllOpen(Datastore.EntryOpener(path, Datastore.MountEntries(c.entries), openEnv.ds))))))
  {
    var rootPath := c.Get("RootPath");
    if rootPath.None? || DecodeString(rootPath.value, "").None? {
      return Err(ErrNoRoot);
    }
    var path := DecodeString(rootPath.value, "").value;
    if !disk.IsInitialized(path) {
      var err := Init(disk, path, c, initEnv);
      if err.Some? {
        return Err(err.value);
      }
    }
    r := Open(opener, disk, path, openEnv);
  }
}
