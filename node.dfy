/**
 * The service node (modules/node/node.go): New opens the repository and
 * reads the service name and task-manager size from the configuration;
 * the dependency-injected components are optional, and every accessor
 * reports a "not configured" error exactly when its component is absent.
 */
module Node {
  import opened Wrappers
  import opened JsonConf

  const ErrNoServiceName := "service name not configured"

  /** An injected component, known only by identity. */
  datatype Handle = Handle(id: nat)

  /** What New settles before the component graph is built. */
  datatype Setup = Setup(svcName: string, tm: Option<TaskManagerCfg>)

  /** taskmanager.New(count, 3*count, 15s). */
  datatype TaskManagerCfg = TaskManagerCfg(workers: int, queue: int, idleSeconds: int)

  /**
   * New: the repository must open (CreateOrOpen's error is returned as is),
   * ServiceName must decode as a string, and the TaskManager is provided
   * only when TMWorkersMin decodes as an integer.
   */
  function New(repoErr: Option<string>, cfg: map<string, Json>): (r: Result<Setup>)
    ensures repoErr.Some? ==> r == Err(repoErr.value)
    ensures repoErr.None? && ("ServiceName" !in cfg || DecodeString(cfg["ServiceName"], "").None?) ==> r == Err(ErrNoServiceName)
    ensures r.Ok? ==> repoErr.None? && "ServiceName" in cfg && Some(r.value.svcName) == DecodeString(cfg["ServiceName"], "")
    ensures r.Ok? ==> (r.value.tm.Some? <==> "TMWorkersMin" in cfg && DecodeInt(cfg["TMWorkersMin"], 0).Some?)
    ensures r.Ok? && r.value.tm.Some? ==> (Some(r.value.tm.value.workers) == DecodeInt(cfg["TMWorkersMin"], 0) &&
      r.value.tm.value.queue == 3 * r.value.tm.value.workers && r.value.tm.value.idleSeconds == 15)
  {
    if repoErr.Some? then Err(repoErr.value)
    else
      var name := match Lookup(cfg, "ServiceName") case Some(j) => DecodeString(j, "") case None => None;
      if name.None? then Err(ErrNoServiceName)
      else
        var count := match Lookup(cfg, "TMWorkersMin") case Some(j) => DecodeInt(j, 0) case None => None;
        Ok(Setup(name.value, if count.Some? then Some(TaskManagerCfg(count.value, 3 * count.value, 15)) else None))
  }

  /** The populated service: each optional component is present or absent. */
  datatype Service = Service(
    repo: Handle,
    am: Option<Handle>, tm: Option<Handle>, lk: Option<Handle>, rsrv: Option<Handle>,
    mx: Option<Handle>, h: Option<Handle>, jm: Option<Handle>, ev: Option<Handle>,
    cs: Option<Handle>, shSt: Option<Handle>)

  function TM(s: Service): (r: Result<Handle>)
    ensures r.Err? <==> s.tm.None?
    ensures r.Err? ==> r.error == "Taskmanager not configured"
    ensures r.Ok? ==> r.value == s.tm.value
  {
    Need(s.tm, "Taskmanager not configured")
  }

  function JWT(s: Service): (r: Result<Handle>)
    ensures r.Err? <==> s.jm.None?
    ensures r.Err? ==> r.error == "JWT not configured"
    ensures r.Ok? ==> r.value == s.jm.value
  {
    Need(s.jm, "JWT not configured")
  }

  function ACL(s: Service): (r: Result<Handle>)
    ensures r.Err? <==> s.am.None?
    ensures r.Err? ==> r.error == "ACL manager not configured"
    ensures r.Ok? ==> r.value == s.am.value
  {
    Need(s.am, "ACL manager not configured")
  }

  function Locker(s: Service): (r: Result<Handle>)
    ensures r.Err? <==> s.lk.None?
    ensures r.Err? ==> r.error == "Locker not configured"
    ensures r.Ok? ==> r.value == s.lk.value
  {
    Need(s.lk, "Locker not configured")
  }

  function Events(s: Service): (r: Result<Handle>)
    ensures r.Err? <==> s.ev.None?
    ensures r.Err? ==> r.error == "Events not configured"
    ensures r.Ok? ==> r.value == s.ev.value
  {
    Need(s.ev, "Events not configured")
  }

  /** Node, GRPC and HTTP hand back the service itself once their component is there. */
  function NodeApi(s: Service): (r: Result<Service>)
    ensures r.Err? <==> s.h.None?
    ensures r.Err? ==> r.error == "Node not configured"
    ensures r.Ok? ==> r.value == s
  {
    if s.h.None? then Err("Node not configured") else Ok(s)
  }

  function GRPC(s: Service): (r: Result<Service>)
    ensures r.Err? <==> s.rsrv.None?
    ensures r.Err? ==> r.error == "GRPC service not configured"
    ensures r.Ok? ==> r.value == s
  {
    if s.rsrv.None? then Err("GRPC service not configured") else Ok(s)
  }

  function HTTP(s: Service): (r: Result<Service>)
    ensures r.Err? <==> s.mx.None?
    ensures r.Err? ==> r.error == "HTTP service not configured"
    ensures r.Ok? ==> r.value == s
  {
    if s.mx.None? then Err("HTTP service not configured") else Ok(s)
  }

  /** Client: without service discovery it fails, otherwise it is whatever Cs.Get(name) yields. */
  function Client<T>(s: Service, got: Result<T>): (r: Result<T>)
    ensures s.cs.None? ==> r == Err("Service discovery not configured")
    ensures s.cs.Some? ==> r == got
  {
    if s.cs.None? then Err("Service discovery not configured") else got
  }

  /** SharedStorage: without a provider it fails, otherwise it delegates (the same namespace and callback). */
  function SharedStorage<T>(s: Service, provided: Result<T>): (r: Result<T>)
    ensures s.shSt.None? ==> r == Err("shared storage provider not configured")
    ensures s.shSt.Some? ==> r == provided
  {
    if s.shSt.None? then Err("shared storage provider not configured") else provided
  }
}
