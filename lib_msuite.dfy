/**
 * The library variant of the service builder (lib/msuite.go): the root,
 * the service name and the TaskManager size live in the build state
 * rather than in the configuration; defaultOpts fills them in, and the
 * task manager is provided only for a positive count.
 */
module LibMsuite {
  import opened Wrappers
  import opened JsonConf
  import Datastore
  import Msuite

  /** The options; those that only write configuration entries share msuite.go's settings. */
  datatype Opt =
    | WithGRPCTCPListener(tcpPort: int)
    | WithJWT(secret: string)
    | WithTracing(tracingName: string, tracingHost: string)
    | WithHTTP(httpPort: int)
    | WithLocker(lkr: string, lockerCfg: map<string, string>)
    | WithP2PPrivateKey(identity: Option<(string, string)>)
    | WithP2PPort(swarmPort: int)
    | WithRepositoryRoot(path: string)
    | WithServiceName(name: string)
    | WithServiceACL(acl: map<string, string>)
    | WithTaskManager(count: int)

  /** The msuite.go option writing the same configuration entries, for the options that only do that. */
  function ConfigOpt(opt: Opt): (r: Option<Msuite.Opt>)
    ensures r.None? <==> opt.WithRepositoryRoot? || opt.WithServiceName? || opt.WithTaskManager?
  {
    match opt
    case WithGRPCTCPListener(port) => Some(Msuite.WithGRPCTCPListener(port))
    case WithJWT(secret) => Some(Msuite.WithJWT(secret))
    case WithTracing(name, host) => Some(Msuite.WithTracing(name, host))
    case WithHTTP(port) => Some(Msuite.WithHTTP(port))
    case WithLocker(lkr, cfg) => Some(Msuite.WithLocker(lkr, cfg))
    case WithP2PPrivateKey(identity) => Some(Msuite.WithP2PPrivateKey(identity))
    case WithP2PPort(port) => Some(Msuite.WithP2PPort(port))
    case WithServiceACL(acl) => Some(Msuite.WithServiceACL(acl))
    case _ => None
  }

  /** The configuration entries an option writes. */
  function LibSettings(opt: Opt): (r: map<string, Json>)
    ensures ConfigOpt(opt).None? ==> r == map[]
    ensures ConfigOpt(opt).Some? ==> r == Msuite.Settings(ConfigOpt(opt).value)
  {
    match ConfigOpt(opt)
    case None => map[]
    case Some(o) => Msuite.Settings(o)
  }

  /** The build state as a value. */
  datatype State = State(cfg: map<string, Json>, root: string, svcName: string, tmCount: int)

  /** What one option does to the build state. */
  function ApplyOpt(s: State, opt: Opt): State
  {
    match opt
    case WithRepositoryRoot(path) => s.(root := path)
    case WithServiceName(name) => s.(svcName := name)
    case WithTaskManager(count) => s.(tmCount := count)
    case _ => s.(cfg := s.cfg + LibSettings(opt))
  }

  /** The state after applying `opts` in order to the initial one. */
  function Applied(opts: seq<Opt>): State
  {
    if opts == [] then State(map[], "", "", 0) else ApplyOpt(Applied(opts[..|opts| - 1]), opts[|opts| - 1])
  }

  /**
   * defaultOpts as a value: name "msuite" and root under the home
   * directory when empty; with P2P or TCP on, one more worker, one more for
   * TCP and two more for P2P. A non-boolean flag panics.
   */
  function Defaults(s: State, home: Result<string>): (r: Result<State>)
    ensures r.Ok? ==> r.value.cfg == s.cfg
    ensures r.Ok? ==> r.value.svcName == if |s.svcName| == 0 then Msuite.DefaultService else s.svcName
    ensures |s.root| == 0 && home.Err? ==> r == Err(Msuite.PanicNoHome)
    ensures r.Ok? ==> r.value.root == if |s.root| == 0 then Datastore.Join(home.value, ".msuite") else s.root
    ensures (|s.root| > 0 || home.Ok?) ==>
      (r.Err? <==> Msuite.BadFlag(s.cfg, "UseP2P") || Msuite.BadFlag(s.cfg, "UseTCP"))
  {
    var name := if |s.svcName| == 0 then Msuite.DefaultService else s.svcName;
    if |s.root| == 0 && home.Err? then Err(Msuite.PanicNoHome)
    else
      var root := if |s.root| == 0 then Datastore.Join(home.value, ".msuite") else s.root;
      if Msuite.BadFlag(s.cfg, "UseP2P") || Msuite.BadFlag(s.cfg, "UseTCP") then Err(Msuite.PanicNotBool)
      else Ok(State(s.cfg, root, name, s.tmCount + TmExtra(Msuite.Flag(s.cfg, "UseP2P"), Msuite.Flag(s.cfg, "UseTCP"))))
  }

  /** The workers defaultOpts adds. */
  function TmExtra(p2p: bool, tcp: bool): (r: int)
    ensures !p2p && !tcp ==> r == 0
    ensures p2p || tcp ==> r == 1 + (if tcp then 1 else 0) + (if p2p then 2 else 0)
    ensures 0 <= r <= 4
  {
    if p2p || tcp then 1 + (if tcp then 1 else 0) + (if p2p then 2 else 0) else 0
  }

  /** The build state object the option closures mutate. */
  class BuildCfg {
    const cfg: Config
    var root: string
    var svcName: string
    var tmCount: int

    constructor ()
      ensures fresh(cfg) && Snapshot() == State(map[], "", "", 0)
    {
      cfg := new Config();
      root, svcName, tmCount := "", "", 0;
    }

    function Snapshot(): State
      reads this, cfg
    {
      State(cfg.entries, root, svcName, tmCount)
    }

    method Apply(opt: Opt)
      modifies this, cfg
      ensures cfg.entries == old(cfg.entries) + LibSettings(opt)
      ensures root == if opt.WithRepositoryRoot? then opt.path else old(root)
      ensures svcName == if opt.WithServiceName? then opt.name else old(svcName)
      ensures tmCount == if opt.WithTaskManager? then opt.count else old(tmCount)
    {
      if opt.WithRepositoryRoot? || opt.WithServiceName? || opt.WithTaskManager? {
        assert LibSettings(opt) == map[];
        assert cfg.entries + map[] == cfg.entries;
        if opt.WithRepositoryRoot? {
          root := opt.path;
        } else if opt.WithServiceName? {
          svcName := opt.name;
        } else {
          tmCount := opt.count;
        }
      } else if opt.WithLocker? {
        ghost var e := cfg.entries;
        var head := map["UseLocker" := JBool(true), "Locker" := JStr(opt.lkr)];
        cfg.SetAll(head);
        cfg.SetAll(Msuite.StrMap(opt.lockerCfg));
        assert (e + head) + Msuite.StrMap(opt.lockerCfg) == e + (head + Msuite.StrMap(opt.lockerCfg));
      } else {
        cfg.SetAll(LibSettings(opt));
      }
    }

    method DefaultOpts(home: Result<string>) returns (panic: Option<string>)
      modifies this
      ensures match Defaults(old(Snapshot()), home)
        case Ok(s) => panic.None? && Snapshot() == s
        case Err(p) => panic == Some(p)
    {
      if |svcName| == 0 {
        svcName := Msuite.DefaultService;
      }
      if |root| == 0 {
        if home.Err? {
          return Some(Msuite.PanicNoHome);
        }
        root := Datastore.Join(home.value, ".msuite");
      }
      var p2p := cfg.IsSet("UseP2P");
      var tcp := if p2p == Some(true) then Some(false) else cfg.IsSet("UseTCP");
      if p2p.None? || tcp.None? {
        return Some(Msuite.PanicNotBool);
      }
      if p2p.value || tcp.value {
        tmCount := tmCount + 1;
        var tcp2 := cfg.IsSet("UseTCP");
        if tcp2.None? {
          return Some(Msuite.PanicNotBool);
        }
        if tcp2.value {
          tmCount := tmCount + 1;
        }
        if p2p.value {
          tmCount := tmCount + 2;
        }
      }
      return None;
    }
  }

  /** int32(n): two's-complement truncation. */
  function Int32(n: int): (r: int)
    ensures -0x8000_0000 <= r < 0x8000_0000
    ensures -0x8000_0000 <= n < 0x8000_0000 ==> r == n
  {
    var m := n % 0x1_0000_0000;
    if m >= 0x8000_0000 then m - 0x1_0000_0000 else m
  }

  /** What New settles: the service name, the root the repository is opened at, and the TaskManager's size if provided. */
  datatype Setup = Setup(svcName: string, root: string, tmWorkers: Option<int>)

  /**
   * New: apply the options, run defaultOpts, open the repository at the
   * chosen root (its error is returned), and provide a task manager of
   * int32(tmCount) workers only when tmCount > 0.
   */
  method New(opts: seq<Opt>, home: Result<string>, repoErr: Option<string>) returns (r: Result<Setup>)
    ensures Defaults(Applied(opts), home).Err? ==> r == Err(Defaults(Applied(opts), home).error)
    ensures Defaults(Applied(opts), home).Ok? && repoErr.Some? ==> r == Err(repoErr.value)
    ensures Defaults(Applied(opts), home).Ok? && repoErr.None? ==> var s := Defaults(Applied(opts), home).value;
      r == Ok(Setup(s.svcName, s.root, if s.tmCount > 0 then Some(Int32(s.tmCount)) else None))
  {
    var b := new BuildCfg();
    var i := 0;
    while i < |opts|
      invariant 0 <= i <= |opts|
      invariant b.Snapshot() == Applied(opts[..i])
      modifies b, b.cfg
    {
      b.Apply(opts[i]);
      assert opts[..i + 1][..i] == opts[..i];
      i := i + 1;
    }
    assert opts[..i] == opts;
    var panic := b.DefaultOpts(home);
    if panic.Some? {
      return Err(panic.value);
    }
    if repoErr.Some? {
      return Err(repoErr.value);
    }
    return Ok(Setup(b.svcName, b.root, if b.tmCount > 0 then Some(Int32(b.tmCount)) else None));
  }

  /** A TCP listener with no explicit count gives a task manager of two workers. */
  lemma TcpOnlyWorkers(home: Result<string>)
    requires home.Ok?
    ensures Defaults(Applied([WithGRPCTCPListener(10000)]), home).Ok?
    ensures Defaults(Applied([WithGRPCTCPListener(10000)]), home).value.tmCount == 2
  {
    var s := Applied([WithGRPCTCPListener(10000)]);
    assert [WithGRPCTCPListener(10000)][..0] == [];
    assert s.cfg == map["UseTCP" := JBool(true), "TCPPort" := JNum(10000)];
    assert "UseP2P" !in s.cfg;
  }

  /** The populated service (the components fx injects, each present or absent). */
  datatype Service = Service(
    am: Option<Node>, tm: Option<Node>, lk: Option<Node>, rsrv: Option<Node>, mx: Option<Node>,
    h: Option<Node>, jm: Option<Node>, ev: Option<Node>, cs: Option<Node>)

  /** An injected component, known only by identity. */
  datatype Node = Component(id: nat)

  function TM(s: Service): (r: Result<Node>)
    ensures r.Err? <==> s.tm.None?
    ensures r.Err? ==> r.error == "Taskmanager not configured"
    ensures r.Ok? ==> r.value == s.tm.value
  {
    Need(s.tm, "Taskmanager not configured")
  }

  function JWT(s: Service): (r: Result<Node>)
    ensures r.Err? <==> s.jm.None?
    ensures r.Err? ==> r.error == "JWT not configured"
    ensures r.Ok? ==> r.value == s.jm.value
  {
    Need(s.jm, "JWT not configured")
  }

  function ACL(s: Service): (r: Result<Node>)
    ensures r.Err? <==> s.am.None?
    ensures r.Err? ==> r.error == "ACL manager not configured"
    ensures r.Ok? ==> r.value == s.am.value
  {
    Need(s.am, "ACL manager not configured")
  }

  function Locker(s: Service): (r: Result<Node>)
    ensures r.Err? <==> s.lk.None?
    ensures r.Err? ==> r.error == "Locker not configured"
    ensures r.Ok? ==> r.value == s.lk.value
  {
    Need(s.lk, "Locker not configured")
  }

  function Events(s: Service): (r: Result<Node>)
    ensures r.Err? <==> s.ev.None?
    ensures r.Err? ==> r.error == "Events not configured"
    ensures r.Ok? ==> r.value == s.ev.value
  {
    Need(s.ev, "Events not configured")
  }

  function NodeApi(s: Service): (r: Result<Service>)
    ensures r.Err? <==> s.h.None?
    ensures r.Err? ==> r.error == "Node not configured"
    ensures r.Ok? ==> r.value == s
  {
    if s.h.None? then Err("Node not configured") else Ok(s)
  }

  function GRPC(s: Service): (r: Result<Service>)
    ensures r.Err? <==> s.rsrv.None?
    ensures r.Err? ==> r.error == "GRPC service not configured"
    ensures r.Ok? ==> r.value == s
  {
    if s.rsrv.None? then Err("GRPC service not configured") else Ok(s)
  }

  function HTTP(s: Service): (r: Result<Service>)
    ensures r.Err? <==> s.mx.None?
    ensures r.Err? ==> r.error == "HTTP service not configured"
    ensures r.Ok? ==> r.value == s
  {
    if s.mx.None? then Err("HTTP service not configured") else Ok(s)
  }

  function Client<T>(s: Service, got: Result<T>): (r: Result<T>)
    ensures s.cs.None? ==> r == Err("Service discovery not configured")
    ensures s.cs.Some? ==> r == got
  {
    if s.cs.None? then Err("Service discovery not configured") else got
  }
}
