/**
 * Opening the repository's mounted datastore (modules/repo/fsrepo/datastore.go):
 * the "Mounts" configuration entry is validated mount by mount, each valid
 * entry opens a leveldb or flatfs backend, and any failure closes the
 * backends opened so far. Directory creation, backend opening, shard
 * function parsing and disk usage are environment outcomes given as maps.
 */
module Datastore {
  import opened Wrappers
  import opened JsonConf

  const DefaultShardFunc := "/repo/flatfs/shard/v1/next-to-last/2"

  const ErrSubConfig := "Sub DS config missing for datastore"
  const ErrPrefix := "Prefix missing for datastore"
  const ErrType := "Invalid datastore type"

  /** DefaultMountInfo: level at "kv" under "/", flatfs at "blocks" under "blocks". */
  const DefaultMountInfo: map<string, Json> := map[
    "level" := JObj(map["path" := JStr("kv"), "prefix" := JStr("/")]),
    "flatfs" := JObj(map["path" := JStr("blocks"), "prefix" := JStr("blocks"),
                         "shardFunc" := JStr(DefaultShardFunc), "sync" := JBool(true)])]

  datatype Backend = Level | FlatFs(shardFunc: string, sync: bool)

  datatype Mount = Mount(backend: Backend, prefix: string, path: string)

  /** What the environment does: failing mkdirs and backend opens by path, failing shard specs. */
  datatype DsEnv = DsEnv(mkdirErr: map<string, string>, openErr: map<string, string>, shardErr: map<string, string>)

  datatype MountedDs = MountedDs(mounts: seq<Mount>, byPath: map<string, Mount>)

  datatype MountInfo = MountInfo(path: string, prefix: string, usage: nat)

  /** filepath.Join of the root and a relative path. */
  function Join(root: string, p: string): string
  {
    root + "/" + p
  }

  /** The mount entries to open: the configured object, or the defaults when Get fails. */
  function MountEntries(cfg: map<string, Json>): (r: map<string, Json>)
    ensures "Mounts" !in cfg ==> r == DefaultMountInfo
    ensures "Mounts" in cfg && cfg["Mounts"].JNull? ==> r == map[]
    ensures "Mounts" in cfg && cfg["Mounts"].JObj? ==> r == cfg["Mounts"].fields
  {
    match Lookup(cfg, "Mounts")
    case Some(JObj(fields)) => fields
    case Some(JNull) => map[]
    case _ => DefaultMountInfo
  }

  /** The string under `key` of a mount entry, if it holds one (a Go `.(string)` assertion). */
  function StrField(fields: map<string, Json>, key: string): (r: Option<string>)
    ensures r.Some? <==> key in fields && fields[key].JStr?
  {
    if key in fields && fields[key].JStr? then Some(fields[key].s) else None
  }

  /** The backend for a mount of type `kind`, with flatfs's defaults filled in. */
  function BackendOf(kind: string, fields: map<string, Json>): (r: Option<Backend>)
    ensures r.Some? <==> kind == "level" || kind == "flatfs"
    ensures kind == "flatfs" ==> (r.value.FlatFs? &&
      r.value.shardFunc == StrField(fields, "shardFunc").GetOr(DefaultShardFunc) &&
      r.value.sync == (if "sync" in fields && fields["sync"].JBool? then fields["sync"].b else true))
  {
    if kind == "level" then Some(Level)
    else if kind == "flatfs" then
      Some(FlatFs(StrField(fields, "shardFunc").GetOr(DefaultShardFunc),
                  if "sync" in fields && fields["sync"].JBool? then fields["sync"].b else true))
    else None
  }

  /** Opening one mount entry, with the checks in the order the source makes them. */
  function OpenMount(root: string, kind: string, v: Json, env: DsEnv): (r: Result<Mount>)
    ensures !v.JObj? ==> r == Err(ErrSubConfig)
    ensures v.JObj? && StrField(v.fields, "prefix").None? ==> r == Err(ErrPrefix)
    ensures r.Ok? ==> (v.JObj? && BackendOf(kind, v.fields) == Some(r.value.backend) &&
      Some(r.value.prefix) == StrField(v.fields, "prefix") &&
      r.value.path == (match StrField(v.fields, "path") case Some(p) => Join(root, p) case None => root))
  {
    if !v.JObj? then Err(ErrSubConfig)
    else
      var fields := v.fields;
      match StrField(fields, "prefix")
      case None => Err(ErrPrefix)
      case Some(prefix) =>
        var rel := StrField(fields, "path");
        var path := if rel.Some? then Join(root, rel.value) else root;
        if rel.Some? && path in env.mkdirErr then Err(env.mkdirErr[path])
        else match BackendOf(kind, fields)
          case None => Err(ErrType)
          case Some(b) =>
            if b.FlatFs? && b.shardFunc in env.shardErr then Err(env.shardErr[b.shardFunc])
            else if path in env.openErr then Err(env.openErr[path])
            else Ok(Mount(b, prefix, path))
  }

  /** Every key opens successfully. */
  ghost predicate AllOpen(open: map<string, Result<Mount>>)
  {
    forall k :: k in open ==> open[k].Ok?
  }

  /** Some key opens to `m`. */
  ghost predicate OpensTo(open: map<string, Result<Mount>>, m: Mount)
  {
    exists k :: k in open && open[k] == Ok(m)
  }

  /** Every mount in `mnts` is what some key opens to. */
  ghost predicate FromKeys(open: map<string, Result<Mount>>, mnts: seq<Mount>)
  {
    forall i :: 0 <= i < |mnts| ==> OpensTo(open, mnts[i])
  }

  /** Every key's mount is in `mnts`. */
  ghost predicate CoversKeys(open: map<string, Result<Mount>>, mnts: seq<Mount>)
  {
    forall k :: k in open ==> open[k].Ok? && open[k].value in mnts
  }

  /** `byPath` indexes exactly the mounts' paths, each by a mount with that path. */
  ghost predicate IndexedByPath(mnts: seq<Mount>, byPath: map<string, Mount>)
  {
    (forall p :: p in byPath ==> byPath[p].path == p && byPath[p] in mnts) &&
    (forall i :: 0 <= i < |mnts| ==> mnts[i].path in byPath)
  }

  /**
   * The mount loop's state: `done` lists the keys opened so far, each once,
   * with `mnts` their mounts in the same order, and `todo` the keys left.
   */
  ghost predicate OpenLoop(open: map<string, Result<Mount>>, todo: set<string>, done: seq<string>,
                           mnts: seq<Mount>, byPath: map<string, Mount>)
  {
    todo <= open.Keys &&
    |done| == |mnts| && Distinct(done) &&
    (forall i :: 0 <= i < |done| ==> done[i] in open && done[i] !in todo) &&
    (forall k :: k in open && k !in todo ==> k in done) &&
    (forall i :: 0 <= i < |done| ==> open[done[i]] == Ok(mnts[i])) &&
    IndexedByPath(mnts, byPath)
  }

  /** Opening one more key that succeeds keeps the loop state. */
  lemma OpenLoopStep(open: map<string, Result<Mount>>, todo: set<string>, done: seq<string>,
                     mnts: seq<Mount>, byPath: map<string, Mount>, k: string, m: Mount)
    requires OpenLoop(open, todo, done, mnts, byPath) && k in todo && open[k] == Ok(m)
    ensures OpenLoop(open, todo - {k}, done + [k], mnts + [m], byPath[m.path := m])
  {
    var done', mnts' := done + [k], mnts + [m];
    assert forall i :: 0 <= i < |done| ==> done'[i] == done[i] && mnts'[i] == mnts[i];
    assert done'[|done|] == k && mnts'[|done|] == m;
    assert forall p :: p in byPath ==> byPath[p] in mnts';
  }

  /**
   * The loop stopped at its (|mnts| + 1)-th key: `ks` lists distinct keys,
   * the first |mnts| of which opened to `mnts` in order, the last failing
   * with `err`.
   */
  ghost predicate FailedAfter(open: map<string, Result<Mount>>, ks: seq<string>, mnts: seq<Mount>, err: string)
  {
    |ks| == |mnts| + 1 && Distinct(ks) &&
    (forall i :: 0 <= i < |ks| ==> ks[i] in open) &&
    (forall i :: 0 <= i < |mnts| ==> open[ks[i]] == Ok(mnts[i])) &&
    open[ks[|mnts|]] == Err(err)
  }

  /** A failing key ends the loop with the mounts opened before it. */
  lemma OpenLoopFails(open: map<string, Result<Mount>>, todo: set<string>, done: seq<string>,
                      mnts: seq<Mount>, byPath: map<string, Mount>, k: string)
    requires OpenLoop(open, todo, done, mnts, byPath) && k in todo && open[k].Err?
    ensures FailedAfter(open, done + [k], mnts, open[k].error)
  {
    var ks := done + [k];
    assert forall i :: 0 <= i < |done| ==> ks[i] == done[i];
    assert ks[|done|] == k;
    forall i, j | 0 <= i < j < |ks| ensures ks[i] != ks[j] {
      if j == |done| {
        assert done[i] !in todo;
      }
    }
  }

  /** The source's mount loop: open the keys in some order, stopping at the first failure. */
  method OpenEach(open: map<string, Result<Mount>>)
    returns (r: Result<MountedDs>, tried: seq<Mount>)
    ensures r.Ok? <==> AllOpen(open)
    ensures r.Ok? ==> tried == r.value.mounts && |tried| == |open|
    ensures r.Ok? ==> CoversKeys(open, tried) && IndexedByPath(tried, r.value.byPath)
    ensures r.Err? ==> exists ks :: FailedAfter(open, ks, tried, r.error)
    ensures FromKeys(open, tried)
  {
    var todo := open.Keys;
    var mnts: seq<Mount> := [];
    var byPath: map<string, Mount> := map[];
    ghost var done: seq<string> := [];
    while todo != {}
      invariant OpenLoop(open, todo, done, mnts, byPath)
      decreases todo
    {
      var k :| k in todo;
      var m := open[k];
      if m.Err? {
        Witnessed(open, done, mnts);
        OpenLoopFails(open, todo, done, mnts, byPath, k);
        return Err(m.error), mnts;
      }
      OpenLoopStep(open, todo, done, mnts, byPath, k, m.value);
      mnts := mnts + [m.value];
      byPath := byPath[m.value.path := m.value];
      done := done + [k];
      todo := todo - {k};
    }
    AllDone(done, open.Keys);
    Witnessed(open, done, mnts);
    forall k | k in open
      ensures open[k].Ok? && open[k].value in mnts
    {
      var i :| 0 <= i < |done| && done[i] == k;
      assert open[done[i]] == Ok(mnts[i]);
    }
    return Ok(MountedDs(mnts, byPath)), mnts;
  }

  lemma Witnessed(open: map<string, Result<Mount>>, done: seq<string>, mnts: seq<Mount>)
    requires |done| == |mnts|
    requires forall i :: 0 <= i < |done| ==> done[i] in open && open[done[i]] == Ok(mnts[i])
    ensures FromKeys(open, mnts)
  {
    forall i | 0 <= i < |mnts|
      ensures OpensTo(open, mnts[i])
    {
      var k := done[i];
      assert k in open && open[k] == Ok(mnts[i]);
    }
  }

  /** What opening each entry of the mount configuration yields. */
  function EntryOpener(root: string, entries: map<string, Json>, env: DsEnv): (f: map<string, Result<Mount>>)
    ensures f.Keys == entries.Keys
    ensures forall k :: k in entries ==> f[k] == OpenMount(root, k, entries[k], env)
  {
    map k | k in entries :: OpenMount(root, k, entries[k], env)
  }

  /**
   * openDatastoreFromCfg: open every mount entry in some order. On success
   * every entry is mounted, indexed by its path; on the first failure the
   * error is that entry's, and exactly the mounts opened before it are
   * closed again, in the order they were opened.
   */
  method OpenDatastoreFromCfg(root: string, cfg: map<string, Json>, env: DsEnv)
    returns (r: Result<MountedDs>, closed: seq<Mount>)
    ensures var open := EntryOpener(root, MountEntries(cfg), env);
      (r.Ok? <==> AllOpen(open)) &&
      (r.Ok? ==> closed == [] && |r.value.mounts| == |MountEntries(cfg)|) &&
      (r.Ok? ==> CoversKeys(open, r.value.mounts) && IndexedByPath(r.value.mounts, r.value.byPath)) &&
      (r.Err? ==> exists ks :: FailedAfter(open, ks, closed, r.error))
  {
    var entries := MountEntries(cfg);
    var open := EntryOpener(root, entries, env);
    var tried;
    r, tried := OpenEach(open);
    closed := if r.Err? then tried else [];
  }

  /** A duplicate-free list that covers a set has exactly that many elements. */
  lemma {:induction false} AllDone(done: seq<string>, keys: set<string>)
    requires Distinct(done)
    requires forall i :: 0 <= i < |done| ==> done[i] in keys
    requires forall k :: k in keys ==> k in done
    ensures |done| == |keys|
    decreases |done|
  {
    if done == [] {
      assert keys == {};
    } else {
      var last := done[|done| - 1];
      var rest := done[..|done| - 1];
      assert Distinct(rest) by {
        forall i, j | 0 <= i < j < |rest| ensures rest[i] != rest[j] {
          assert rest[i] == done[i] && rest[j] == done[j];
        }
      }
      forall k | k in keys - {last} ensures k in rest {
        var i :| 0 <= i < |done| && done[i] == k;
        assert i != |done| - 1;
        assert rest[i] == k;
      }
      forall i | 0 <= i < |rest| ensures rest[i] in keys - {last} {
        assert rest[i] == done[i];
      }
      AllDone(rest, keys - {last});
    }
  }

  /** The string form of a datastore key: rooted at "/". */
  function KeyString(prefix: string): (r: string)
    ensures |r| > 0 && r[0] == '/'
  {
    if |prefix| > 0 && prefix[0] == '/' then prefix else "/" + prefix
  }

  /**
   * Mounts: one entry per mounted path whose datastore is persistent (has a
   * disk usage, given by `usage`); the first failing disk usage fails the call.
   */
  method Mounts(byPath: map<string, Mount>, usage: map<string, Result<nat>>)
    returns (r: Result<seq<MountInfo>>)
    ensures r.Err? <==> exists p :: p in byPath && p in usage && usage[p].Err?
    ensures r.Ok? ==>
      (forall i :: 0 <= i < |r.value| ==> var p := r.value[i].path;
         p in byPath && p in usage && r.value[i] == MountInfo(p, KeyString(byPath[p].prefix), usage[p].value)) &&
      (forall p :: p in byPath && p in usage ==> exists i :: 0 <= i < |r.value| && r.value[i].path == p)
  {
    var todo := byPath.Keys;
    var infos: seq<MountInfo> := [];
    while todo != {}
      invariant todo <= byPath.Keys
      invariant forall p :: p in byPath && p !in todo && p in usage ==> usage[p].Ok?
      invariant forall i :: 0 <= i < |infos| ==> var p := infos[i].path;
        p in byPath && p !in todo && p in usage && usage[p].Ok? && infos[i] == MountInfo(p, KeyString(byPath[p].prefix), usage[p].value)
      invariant forall p :: p in byPath && p !in todo && p in usage ==> exists i :: 0 <= i < |infos| && infos[i].path == p
      decreases todo
    {
      var p :| p in todo;
      if p in usage {
        if usage[p].Err? {
          return Err(usage[p].error);
        }
        ghost var before := infos;
        infos := infos + [MountInfo(p, KeyString(byPath[p].prefix), usage[p].value)];
        forall q | q in byPath && q !in todo - {p} && q in usage
          ensures exists i :: 0 <= i < |infos| && infos[i].path == q
        {
          if q == p {
            assert infos[|infos| - 1].path == q;
          } else {
            var i :| 0 <= i < |before| && before[i].path == q;
            assert infos[i].path == q;
          }
        }
      }
      todo := todo - {p};
    }
    return Ok(infos);
  }

  /** With no Mounts entry, the defaults open level at root/kv and flatfs at root/blocks. */
  lemma DefaultMounts(root: string, env: DsEnv)
    requires Join(root, "kv") !in env.mkdirErr && Join(root, "kv") !in env.openErr
    requires Join(root, "blocks") !in env.mkdirErr && Join(root, "blocks") !in env.openErr
    requires DefaultShardFunc !in env.shardErr
    ensures OpenMount(root, "level", DefaultMountInfo["level"], env) == Ok(Mount(Level, "/", Join(root, "kv")))
    ensures OpenMount(root, "flatfs", DefaultMountInfo["flatfs"], env) == Ok(Mount(FlatFs(DefaultShardFunc, true), "blocks", Join(root, "blocks")))
  {
  }

  /** A mount of any type other than level or flatfs fails, once its prefix and directory are fine. */
  lemma UnknownTypeFails(root: string, kind: string, fields: map<string, Json>, env: DsEnv)
    requires kind != "level" && kind != "flatfs"
    requires StrField(fields, "prefix").Some? && StrField(fields, "path").None?
    ensures OpenMount(root, kind, JObj(fields), env) == Err(ErrType)
  {
  }
}
