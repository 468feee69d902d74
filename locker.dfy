/**
 * Choosing the distributed-lock backend (modules/locker/handler.go).
 *
 * The "Locker" entry names the backend; zookeeper needs a host and a
 * port, redis a host and a network. The zookeeper constructor's error is
 * a parameter (it dials). A backend that was built gets a stop hook that
 * closes it.
 */
module Locker {
  import opened Wrappers
  import opened JsonConf

  const ErrNotConfigured := "Locker not configured"
  const ErrZkHost := "Zookeeper host absent"
  const ErrZkPort := "Zookeeper port absent"
  const ErrRedisHost := "Redis host absent"
  const ErrInvalid := "Invalid locker handler"

  datatype Backend = InMem | Zookeeper(host: string, port: int) | Redis(network: string, host: string)

  /** The locker, and whether a stop hook closing it was registered. */
  datatype Built = Built(backend: Backend, closeHook: bool)

  /** NewLocker over the configuration entries; `zkErr` is what the zookeeper constructor returns. */
  function NewLocker(cfg: map<string, Json>, zkErr: Option<string>): (r: Result<Built>)
    ensures r.Ok? ==> r.value.closeHook
  {
    match GetString(cfg, "Locker", "")
    case None => Err(ErrNotConfigured)
    case Some(lk) =>
      if lk == "inmem" then Ok(Built(InMem, true))
      else if lk == "zookeeper" then
        match GetString(cfg, "ZookeeperHost", "")
        case None => Err(ErrZkHost)
        case Some(host) =>
          match GetInt(cfg, "ZookeeperPort", 0)
          case None => Err(ErrZkPort)
          case Some(port) => if zkErr.Some? then Err(zkErr.value) else Ok(Built(Zookeeper(host, port), true))
      else if lk == "redis" then
        match GetString(cfg, "RedisHost", "")
        case None => Err(ErrRedisHost)
        case Some(host) =>
          match GetString(cfg, "RedisNetwork", "")
          case None => Err(ErrRedisHost)
          case Some(netw) => Ok(Built(Redis(netw, host), true))
      else Err(ErrInvalid)
  }

  /** The backend named by a string "Locker" entry. */
  function Named(cfg: map<string, Json>): Option<string>
  {
    GetString(cfg, "Locker", "")
  }

  /** A missing or non-string "Locker" entry, and only that, is refused as not configured; a name other than the three backends is invalid. */
  lemma NewLockerNaming(cfg: map<string, Json>, zkErr: Option<string>)
    ensures Named(cfg).None? ==> NewLocker(cfg, zkErr) == Err(ErrNotConfigured)
    ensures Named(cfg).Some? && zkErr != Some(ErrNotConfigured) ==> NewLocker(cfg, zkErr) != Err(ErrNotConfigured)
    ensures Named(cfg).Some? && Named(cfg).value !in {"inmem", "zookeeper", "redis"} ==> NewLocker(cfg, zkErr) == Err(ErrInvalid)
    ensures Named(cfg) == Some("inmem") ==> NewLocker(cfg, zkErr) == Ok(Built(InMem, true))
  {
    assert ErrNotConfigured[0] != ErrZkHost[0] && ErrNotConfigured[0] != ErrZkPort[0] && ErrNotConfigured[0] != ErrRedisHost[0];
    assert ErrNotConfigured[1] != ErrInvalid[1];
  }

  /** Zookeeper is built exactly when both its keys decode and its constructor succeeds. */
  lemma ZookeeperNeedsHostAndPort(cfg: map<string, Json>, zkErr: Option<string>)
    requires Named(cfg) == Some("zookeeper")
    ensures NewLocker(cfg, zkErr).Ok? <==>
      GetString(cfg, "ZookeeperHost", "").Some? && GetInt(cfg, "ZookeeperPort", 0).Some? && zkErr.None?
    ensures GetString(cfg, "ZookeeperHost", "").None? ==> NewLocker(cfg, zkErr) == Err(ErrZkHost)
    ensures GetString(cfg, "ZookeeperHost", "").Some? && GetInt(cfg, "ZookeeperPort", 0).None? ==> NewLocker(cfg, zkErr) == Err(ErrZkPort)
    ensures NewLocker(cfg, zkErr).Ok? ==>
      NewLocker(cfg, zkErr).value.backend == Zookeeper(GetString(cfg, "ZookeeperHost", "").value, GetInt(cfg, "ZookeeperPort", 0).value)
  {
  }

  /** Redis is built exactly when both its keys decode; either one missing gives the same host message. */
  lemma RedisNeedsHostAndNetwork(cfg: map<string, Json>, zkErr: Option<string>)
    requires Named(cfg) == Some("redis")
    ensures NewLocker(cfg, zkErr).Ok? <==> GetString(cfg, "RedisHost", "").Some? && GetString(cfg, "RedisNetwork", "").Some?
    ensures NewLocker(cfg, zkErr).Err? ==> NewLocker(cfg, zkErr).error == ErrRedisHost
    ensures NewLocker(cfg, zkErr).Ok? ==>
      NewLocker(cfg, zkErr).value.backend == Redis(GetString(cfg, "RedisNetwork", "").value, GetString(cfg, "RedisHost", "").value)
  {
  }
}
