/**
 * Building a service (msuite.go): options write entries into a fresh
 * JSON configuration and register named init functions; defaultOpts fills
 * in the service list, the repository root and the TaskManager worker
 * counts; New then builds the node and runs every init function.
 * An init function is represented by the error it returns, if any.
 */
module Msuite {
  import opened Wrappers
  import opened JsonConf
  import FsRepo
  import Datastore
  import Node

  const DefaultService := "msuite"
  /** The panics of defaultOpts, returned as values here. */
  const PanicNoHome := "Unable to determine home directory"
  const PanicNotBool := "interface conversion: interface {} is not bool"
  const PanicNilMap := "assignment to entry in nil map"

  /** The options New accepts. */
  datatype Opt =
    | WithGRPC
    | WithGRPCTCPListener(tcpPort: int)
    | WithJWT(secret: string)
    | WithTracing(tracingName: string, tracingHost: string)
    | WithHTTP(httpPort: int)
    | WithLocker(lkr: string, lockerCfg: map<string, string>)
    /** The key's encoded private key and peer ID, None when either conversion fails. */
    | WithP2PPrivateKey(identity: Option<(string, string)>)
    | WithP2PPort(swarmPort: int)
    | WithRepositoryRoot(path: string)
    | WithServiceName(name: string)
    | WithServiceACL(acl: map<string, string>)
    | WithTaskManager(min: int, max: int)
    | WithPrometheus(useLatency: bool)
    | WithStaticDiscovery(svcAddrs: map<string, string>)
    | WithService(svc: string, initErr: Option<string>)

  function StrMap(m: map<string, string>): (r: map<string, Json>)
    ensures r.Keys == m.Keys && forall k :: k in m ==> r[k] == JStr(m[k])
  {
    map k | k in m :: JStr(m[k])
  }

  function StrList(s: seq<string>): Json
  {
    JArr(seq(|s|, i requires 0 <= i < |s| => JStr(s[i])))
  }

  function IntMap(m: map<string, int>): (r: Json)
    ensures r.JObj? && r.fields.Keys == m.Keys && forall k :: k in m ==> r.fields[k] == JNum(m[k])
  {
    JObj(map k | k in m :: JNum(m[k]))
  }

  /** The configuration entries an option writes (later writes of the same option win). */
  function Settings(opt: Opt): map<string, Json>
  {
    match opt
    case WithGRPC => map["UseGRPC" := JBool(true)]
    case WithGRPCTCPListener(port) => map["UseTCP" := JBool(true), "TCPPort" := JNum(port)]
    case WithJWT(secret) => map["UseJWT" := JBool(true), "JWTSecret" := JStr(secret)]
    case WithTracing(name, host) => map["UseTracing" := JBool(true), "TracingName" := JStr(name), "TracingHost" := JStr(host)]
    case WithHTTP(port) => map["UseHTTP" := JBool(true), "HTTPPort" := JNum(port)]
    case WithLocker(lkr, cfg) => map["UseLocker" := JBool(true), "Locker" := JStr(lkr)] + StrMap(cfg)
    case WithP2PPrivateKey(identity) =>
      if identity.Some? then map["Identity" := FsRepo.IdentityEntry(identity.value.0, identity.value.1)] else map[]
    case WithP2PPort(port) => map["UseP2P" := JBool(true), "SwarmPort" := JNum(port)]
    case WithRepositoryRoot(path) => map["RootPath" := JStr(path)]
    case WithServiceName(name) => map["Services" := StrList([name])]
    case WithServiceACL(acl) => map["UseACL" := JBool(true), "ACL" := JObj(StrMap(acl))]
    case WithTaskManager(min, max) => map["TMWorkers" := IntMap(map["Min" := min, "Max" := max])]
    case WithPrometheus(useLatency) =>
      map["UsePrometheus" := JBool(true)] + (if useLatency then map["UsePrometheusLatency" := JBool(true)] else map[])
    case WithStaticDiscovery(addrs) => map["UseStaticDiscovery" := JBool(true), "StaticAddresses" := JObj(StrMap(addrs))]
    case WithService(_, _) => map[]
  }

  /** The configuration after applying `opts` in order to an empty one. */
  function Built(opts: seq<Opt>): map<string, Json>
  {
    if opts == [] then map[] else Built(opts[..|opts| - 1]) + Settings(opts[|opts| - 1])
  }

  /** The init functions registered by `opts`, a later registration of a name replacing an earlier one. */
  function ServicesOf(opts: seq<Opt>): map<string, Option<string>>
  {
    if opts == [] then map[]
    else
      var last := opts[|opts| - 1];
      var before := ServicesOf(opts[..|opts| - 1]);
      if last.WithService? then before[last.svc := last.initErr] else before
  }

  /** The service list defaultOpts starts from: the configured one, or ["msuite"] when there is none. */
  function BaseServices(e: map<string, Json>): seq<string>
  {
    if "Services" !in e then [DefaultService] else DecodeStrings(e["Services"], []).GetOr([])
  }

  /**
   * A service list written into the configuration reads back unchanged:
   * after WithServiceName(n), defaultOpts starts from exactly [n].
   */
  lemma BaseServicesAfterWrite(e: map<string, Json>, names: seq<string>)
    ensures BaseServices(e["Services" := StrList(names)]) == names
    ensures "Services" !in e ==> BaseServices(e) == [DefaultService]
  {
    StringsRoundTrip(names, []);
  }

  /** Whether a flag's IsSet panics (the key holds a non-boolean). */
  predicate BadFlag(e: map<string, Json>, key: string)
  {
    IsSetIn(e, key).None?
  }

  /** Whether the TaskManager block of defaultOpts panics: one of its three flags is not a boolean. */
  predicate FlagsPanic(e: map<string, Json>)
  {
    BadFlag(e, "UseP2P") || BadFlag(e, "UseTCP") || BadFlag(e, "UseHTTP")
  }

  /** TMWorkers holds null, so Get leaves the target a nil map and the first write to it panics. */
  predicate NilWorkers(e: map<string, Json>)
  {
    "TMWorkers" in e && e["TMWorkers"].JNull?
  }

  /** Whether the TaskManager block of defaultOpts panics at all. */
  predicate TmPanics(e: map<string, Json>)
  {
    FlagsPanic(e) || (AnyFlag(e) && NilWorkers(e))
  }

  function Flag(e: map<string, Json>, key: string): bool
  {
    IsSetIn(e, key) == Some(true)
  }

  /** A Go map read: the zero value for a missing key. */
  function Get0(m: map<string, int>, k: string): int
  {
    if k in m then m[k] else 0
  }

  /**
   * The TMWorkers arithmetic: Min grows by one, one more for TCP, two for
   * P2P and one for HTTP; Max becomes twice Min only if it is below Min.
   */
  function TmWorkers(found: Option<map<string, int>>, tcp: bool, p2p: bool, http: bool): (r: map<string, int>)
  {
    var base := found.GetOr(map["Min" := 0, "Max" := 0]);
    var min := Get0(base, "Min") + 1 + (if tcp then 1 else 0) + (if p2p then 2 else 0) + (if http then 1 else 0);
    var withMin := base["Min" := min];
    if Get0(base, "Max") < min then withMin["Max" := 2 * min] else withMin
  }

  /** The TMWorkers a configuration decodes to, if it decodes. */
  function TmWorkersFound(e: map<string, Json>): Option<map<string, int>>
  {
    if "TMWorkers" in e then DecodeIntMap(e["TMWorkers"], map[]) else None
  }

  /** The TaskManager sizing obeys the documented arithmetic, and Max ends at least Min when Min is not negative. */
  lemma TmWorkersArithmetic(found: Option<map<string, int>>, tcp: bool, p2p: bool, http: bool)
    ensures var r := TmWorkers(found, tcp, p2p, http);
      var base := found.GetOr(map["Min" := 0, "Max" := 0]);
      "Min" in r && r["Min"] - Get0(base, "Min") == 1 + (if tcp then 1 else 0) + (if p2p then 2 else 0) + (if http then 1 else 0) &&
      (Get0(base, "Max") >= r["Min"] ==> Get0(r, "Max") == Get0(base, "Max")) &&
      (r["Min"] >= 0 ==> Get0(r, "Max") >= r["Min"]) &&
      (forall k :: k in base && k != "Min" && k != "Max" ==> k in r && r[k] == base[k])
  {
  }

  /** Without a configured TMWorkers, the counts start from zero: TCP alone gives Min 2 and Max 4. */
  lemma TmWorkersTcpOnly()
    ensures TmWorkers(None, true, false, false) == map["Min" := 2, "Max" := 4]
  {
  }

  /** The build state: the startup configuration and the registered init functions. */
  class BuildCfg {
    const startupCfg: Config
    var services: map<string, Option<string>>

    constructor ()
      ensures fresh(startupCfg) && startupCfg.entries == map[] && services == map[]
    {
      startupCfg := new Config();
      services := map[];
    }

    /** Run one option closure on the build state. */
    method Apply(opt: Opt)
      modifies this, startupCfg
      ensures startupCfg.entries == old(startupCfg.entries) + Settings(opt)
      ensures services == if opt.WithService? then old(services)[opt.svc := opt.initErr] else old(services)
    {
      if opt.WithService? {
        services := services[opt.svc := opt.initErr];
        assert startupCfg.entries + map[] == startupCfg.entries;
      } else if opt.WithLocker? {
        ghost var e := startupCfg.entries;
        var head := map["UseLocker" := JBool(true), "Locker" := JStr(opt.lkr)];
        startupCfg.SetAll(head);
        // the closure's loop over the locker configuration
        startupCfg.SetAll(StrMap(opt.lockerCfg));
        assert (e + head) + StrMap(opt.lockerCfg) == e + (head + StrMap(opt.lockerCfg));
      } else {
        startupCfg.SetAll(Settings(opt));
      }
    }

    /** Run the option closures in order on a fresh build state. */
    method ApplyAll(opts: seq<Opt>)
      requires startupCfg.entries == map[] && services == map[]
      modifies this, startupCfg
      ensures startupCfg.entries == Built(opts) && services == ServicesOf(opts)
    {
      var i := 0;
      while i < |opts|
        invariant 0 <= i <= |opts|
        invariant startupCfg.entries == Built(opts[..i]) && services == ServicesOf(opts[..i])
      {
        Apply(opts[i]);
        assert opts[..i + 1][..i] == opts[..i];
        i := i + 1;
      }
      assert opts[..i] == opts;
    }

    /**
     * defaultOpts: default and extend the service list (the registered
     * names in `order`, the map's iteration order), then default RootPath,
     * then size the TaskManager. A panic is returned as `panic`, with the
     * configuration as the steps before it left it.
     */
    method DefaultOpts(home: Result<string>) returns (panic: Option<string>, order: seq<string>)
      modifies startupCfg
      ensures |order| == |services| && Distinct(order) && forall x :: x in order <==> x in services
      ensures var e1 := old(startupCfg.entries)["Services" := StrList(BaseServices(old(startupCfg.entries)) + order)];
        match WithRoot(e1, home)
        case Err(p) => panic == Some(p) && startupCfg.entries == e1
        case Ok(e2) =>
          match SizeTaskManager(e2)
          case Err(p) => panic == Some(p) && startupCfg.entries == e2
          case Ok(e3) => panic.None? && startupCfg.entries == e3
    {
      order := ExtendServices();
      var rootPanic := DefaultRoot(home);
      if rootPanic.Some? {
        return rootPanic, order;
      }
      panic := SizeTM();
    }

    /** The service list: the configured names (or ["msuite"]) followed by every registered one. */
    method ExtendServices() returns (order: seq<string>)
      modifies startupCfg
      ensures |order| == |services| && Distinct(order) && forall x :: x in order <==> x in services
      ensures startupCfg.entries == old(startupCfg.entries)["Services" := StrList(BaseServices(old(startupCfg.entries)) + order)]
    {
      var c := startupCfg;
      ghost var e0 := c.entries;
      if !c.Exists("Services") {
        c.Set("Services", StrList([DefaultService]));
      }
      var listed := DecodeStrings(c.Get("Services").value, []).GetOr([]);
      assert listed == BaseServices(e0);
      var todo := services.Keys;
      order := [];
      while todo != {}
        invariant todo <= services.Keys
        invariant Distinct(order) && |order| + |todo| == |services|
        invariant forall x :: x in order <==> x in services && x !in todo
        decreases todo
      {
        var k :| k in todo;
        order := order + [k];
        todo := todo - {k};
      }
      c.Set("Services", StrList(listed + order));
    }

    method DefaultRoot(home: Result<string>) returns (panic: Option<string>)
      modifies startupCfg
      ensures match WithRoot(old(startupCfg.entries), home)
        case Err(p) => panic == Some(p) && startupCfg.entries == old(startupCfg.entries)
        case Ok(e) => panic.None? && startupCfg.entries == e
    {
      if !startupCfg.Exists("RootPath") {
        if home.Err? {
          return Some(PanicNoHome);
        }
        startupCfg.Set("RootPath", JStr(Datastore.Join(home.value, ".msuite")));
      }
      return None;
    }

    method SizeTM() returns (panic: Option<string>)
      modifies startupCfg
      ensures match SizeTaskManager(old(startupCfg.entries))
        case Err(p) => panic == Some(p) && startupCfg.entries == old(startupCfg.entries)
        case Ok(e) => panic.None? && startupCfg.entries == e
    {
      var c := startupCfg;
      var p2p := c.IsSet("UseP2P");
      var tcp := c.IsSet("UseTCP");
      var http := c.IsSet("UseHTTP");
      if p2p.None? || tcp.None? || http.None? {
        return Some(PanicNotBool);
      }
      if p2p.value || tcp.value || http.value {
        var found := c.Get("TMWorkers");
        if found.Some? && found.value.JNull? {
          return Some(PanicNilMap);
        }
        var tmCfg := if found.Some? then DecodeIntMap(found.value, map[]) else None;
        c.Set("TMWorkers", IntMap(TmWorkers(tmCfg, tcp.value, p2p.value, http.value)));
      }
      return None;
    }
  }

  /** The RootPath step: keep a configured root, else the home directory's .msuite, else panic. */
  function WithRoot(e: map<string, Json>, home: Result<string>): (r: Result<map<string, Json>>)
    ensures "RootPath" in e ==> r == Ok(e)
    ensures "RootPath" !in e && home.Err? ==> r == Err(PanicNoHome)
    ensures r.Ok? ==> r.value.Keys == e.Keys + {"RootPath"} && forall k :: k in e && k != "RootPath" ==> r.value[k] == e[k]
  {
    if "RootPath" in e then Ok(e)
    else if home.Err? then Err(PanicNoHome)
    else Ok(e["RootPath" := JStr(Datastore.Join(home.value, ".msuite"))])
  }

  /** Some flag among P2P, TCP and HTTP is set. */
  predicate AnyFlag(e: map<string, Json>)
  {
    Flag(e, "UseP2P") || Flag(e, "UseTCP") || Flag(e, "UseHTTP")
  }

  /**
   * The TaskManager step: panic on a non-boolean flag, resize TMWorkers when
   * a flag is set; a null TMWorkers decodes to a nil map, whose update panics.
   */
  function SizeTaskManager(e: map<string, Json>): (r: Result<map<string, Json>>)
    ensures r.Err? <==> TmPanics(e)
    ensures r.Err? ==> r.error == if FlagsPanic(e) then PanicNotBool else PanicNilMap
    ensures r.Ok? && !AnyFlag(e) ==> r.value == e
    ensures r.Ok? && AnyFlag(e) ==> (r.value.Keys == e.Keys + {"TMWorkers"} &&
      (forall k :: k in e && k != "TMWorkers" ==> r.value[k] == e[k]) &&
      r.value["TMWorkers"] == IntMap(TmWorkers(TmWorkersFound(e), Flag(e, "UseTCP"), Flag(e, "UseP2P"), Flag(e, "UseHTTP"))))
  {
    if FlagsPanic(e) then Err(PanicNotBool)
    else if AnyFlag(e) && NilWorkers(e) then Err(PanicNilMap)
    else if AnyFlag(e) then
      Ok(e["TMWorkers" := IntMap(TmWorkers(TmWorkersFound(e), Flag(e, "UseTCP"), Flag(e, "UseP2P"), Flag(e, "UseHTTP")))])
    else Ok(e)
  }

  /** Writing Services or RootPath leaves the three flags, and so the TaskManager step's trigger, as they were. */
  lemma FlagsUnaffected(e: map<string, Json>, k: string, v: Json)
    requires k == "Services" || k == "RootPath"
    ensures FlagsPanic(e[k := v]) == FlagsPanic(e) && AnyFlag(e[k := v]) == AnyFlag(e)
    ensures TmWorkersFound(e[k := v]) == TmWorkersFound(e) && TmPanics(e[k := v]) == TmPanics(e)
  {
    assert "UseP2P" != k && "UseTCP" != k && "UseHTTP" != k && "TMWorkers" != k;
    assert IsSetIn(e[k := v], "UseP2P") == IsSetIn(e, "UseP2P");
    assert IsSetIn(e[k := v], "UseTCP") == IsSetIn(e, "UseTCP");
    assert IsSetIn(e[k := v], "UseHTTP") == IsSetIn(e, "UseHTTP");
  }

  /** defaultOpts touches neither ServiceName nor TMWorkersMin, so the node reads them as the options left them. */
  lemma NodeKeysUnaffected(repoErr: Option<string>, e: map<string, Json>, k: string, v: Json)
    requires k == "Services" || k == "RootPath" || k == "TMWorkers"
    ensures Node.New(repoErr, e[k := v]) == Node.New(repoErr, e)
  {
    assert k != "ServiceName" && k != "TMWorkersMin";
    assert Lookup(e[k := v], "ServiceName") == Lookup(e, "ServiceName");
    assert Lookup(e[k := v], "TMWorkersMin") == Lookup(e, "TMWorkersMin");
  }

  /**
   * defaultOpts panics only on a missing home, a non-boolean flag or a null
   * TMWorkers, and the
   * node it leads to is the one the options alone describe.
   */
  lemma DefaultsKeepNode(repoErr: Option<string>, e0: map<string, Json>, order: seq<string>, home: Result<string>)
    ensures var e1 := e0["Services" := StrList(BaseServices(e0) + order)];
      ("RootPath" in e0 || home.Ok?) ==> WithRoot(e1, home).Ok?
    ensures var e1 := e0["Services" := StrList(BaseServices(e0) + order)];
      WithRoot(e1, home).Ok? ==>
        TmPanics(WithRoot(e1, home).value) == TmPanics(e0) &&
        (SizeTaskManager(WithRoot(e1, home).value).Ok? ==>
          Node.New(repoErr, SizeTaskManager(WithRoot(e1, home).value).value) == Node.New(repoErr, e0))
  {
    var v1 := StrList(BaseServices(e0) + order);
    var e1 := e0["Services" := v1];
    assert ("RootPath" in e1) == ("RootPath" in e0);
    FlagsUnaffected(e0, "Services", v1);
    NodeKeysUnaffected(repoErr, e0, "Services", v1);
    match WithRoot(e1, home)
    case Err(_) =>
    case Ok(e2) =>
      if "RootPath" !in e1 {
        assert e2 == e1["RootPath" := e2["RootPath"]];
        FlagsUnaffected(e1, "RootPath", e2["RootPath"]);
        NodeKeysUnaffected(repoErr, e1, "RootPath", e2["RootPath"]);
      }
      match SizeTaskManager(e2)
      case Err(_) =>
      case Ok(e3) =>
        if AnyFlag(e2) {
          assert e3 == e2["TMWorkers" := e3["TMWorkers"]];
          NodeKeysUnaffected(repoErr, e2, "TMWorkers", e3["TMWorkers"]);
        }
  }

  /**
   * New: apply the options in order, run defaultOpts, create the node, then
   * run the init functions in some order; the first failure stops the
   * service (`stopped`) and is returned.
   */
  method New(opts: seq<Opt>, home: Result<string>, repoErr: Option<string>)
    returns (r: Result<Node.Setup>, stopped: bool)
    ensures r.Ok? ==> Node.New(repoErr, Built(opts)).Ok? && r.value == Node.New(repoErr, Built(opts)).value
    ensures r.Ok? ==> forall s :: s in ServicesOf(opts) ==> ServicesOf(opts)[s].None?
    ensures stopped ==> r.Err? && Node.New(repoErr, Built(opts)).Ok? && exists s :: s in ServicesOf(opts) && ServicesOf(opts)[s] == Some(r.error)
    ensures ("RootPath" in Built(opts) || home.Ok?) && !TmPanics(Built(opts)) && Node.New(repoErr, Built(opts)).Ok? ==>
      (r.Err? <==> stopped) && (stopped <==> exists s :: s in ServicesOf(opts) && ServicesOf(opts)[s].Some?)
  {
    stopped := false;
    var b := new BuildCfg();
    b.ApplyAll(opts);
    ghost var e0 := b.startupCfg.entries;
    var panic, order := b.DefaultOpts(home);
    if panic.Some? {
      return Err(panic.value), false;
    }
    DefaultsKeepNode(repoErr, e0, order, home);
    assert Node.New(repoErr, b.startupCfg.entries) == Node.New(repoErr, Built(opts));
    var node := Node.New(repoErr, b.startupCfg.entries);
    if node.Err? {
      return Err(node.error), false;
    }
    var initErr := RunInits(b.services, order);
    if initErr.Some? {
      return Err(initErr.value), true;
    }
    return Ok(node.value), false;
  }

  /**
   * Run the registered init functions in `order` (every service once); the
   * first one that fails stops the run and its error is returned.
   */
  method RunInits(services: map<string, Option<string>>, order: seq<string>) returns (err: Option<string>)
    requires forall x :: x in order <==> x in services
    ensures err.None? ==> forall s :: s in services ==> services[s].None?
    ensures err.Some? ==> exists s :: s in services && services[s] == err
  {
    var j := 0;
    while j < |order|
      invariant 0 <= j <= |order|
      invariant forall t :: 0 <= t < j ==> services[order[t]].None?
    {
      var initErr := services[order[j]];
      if initErr.Some? {
        return initErr;
      }
      j := j + 1;
    }
    forall s | s in services ensures services[s].None? {
      var t :| 0 <= t < |order| && order[t] == s;
    }
    return None;
  }

  /** Only a locker option's extra keys can write ServiceName. */
  lemma {:induction false} ServiceNameOnlyFromLocker(opts: seq<Opt>)
    requires forall i :: 0 <= i < |opts| ==> !(opts[i].WithLocker? && "ServiceName" in opts[i].lockerCfg)
    ensures "ServiceName" !in Built(opts)
  {
    if opts != [] {
      ServiceNameOnlyFromLocker(opts[..|opts| - 1]);
      SettingsLackServiceName(opts[|opts| - 1]);
    }
  }

  lemma SettingsLackServiceName(opt: Opt)
    requires !(opt.WithLocker? && "ServiceName" in opt.lockerCfg)
    ensures "ServiceName" !in Settings(opt)
  {
    match opt {
      case WithLocker(lkr, cfg) =>
        assert "ServiceName" !in StrMap(cfg);
      case WithTracing(name, host) =>
        assert "ServiceName" != "TracingName" by { assert "ServiceName"[0] != "TracingName"[0]; }
        assert "ServiceName" != "TracingHost" by { assert "ServiceName"[0] != "TracingHost"[0]; }
      case WithPrometheus(useLatency) =>
      case _ =>
    }
  }

  /**
   * So New fails with "service name not configured" whenever the repository
   * opens and no locker option supplies ServiceName: WithServiceName writes
   * Services, not the key the node reads.
   */
  lemma NewLacksServiceName(opts: seq<Opt>)
    requires forall i :: 0 <= i < |opts| ==> !(opts[i].WithLocker? && "ServiceName" in opts[i].lockerCfg)
    ensures Node.New(None, Built(opts)) == Err(Node.ErrNoServiceName)
  {
    ServiceNameOnlyFromLocker(opts);
  }
}
