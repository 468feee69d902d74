/**
 * The zookeeper lock handler (modules/locker/handlers/zookeeper/zookeeper.go).
 *
 * A lock on an item is a zookeeper lock on the znode
 * "/<namespace>/<id>", taken over a connection from the generic pool
 * (at most 50 connections, 10 idle). Unlocking hands the connection back
 * to the pool. The zookeeper lock recipe itself is an outcome parameter.
 *
 * As written, newLock drops the path's error, so an item with an empty
 * namespace or id is locked on the empty path, and all such items share
 * one lock. NewLockAsWritten models that; NewLock refuses them.
 */
module ZkLocker {
  import opened Wrappers
  import opened LockerCommon
  import ConnPool

  const Separator := '/'
  const ErrMissingInfo := "Obj is missing information to make that lock"
  const ErrNoHost := "zookeeper hostname missing"
  const ErrNoPort := "zookeeper port missing"
  const MaxConnections := 50
  const MaxIdle := 10

  /** getZNodePath. */
  function GetZNodePath(obj: LockItem): (r: Result<string>)
    ensures r.Err? <==> obj.namespace == "" || obj.id == ""
    ensures r.Err? ==> r.error == ErrMissingInfo
    ensures r.Ok? ==> r.value == [Separator] + obj.namespace + [Separator] + obj.id
  {
    if obj.namespace == "" || obj.id == "" then Err(ErrMissingInfo)
    else Ok([Separator] + obj.namespace + [Separator] + obj.id)
  }

  /** Items whose namespaces hold no slash get distinct paths. */
  lemma ZNodePathInjective(o1: LockItem, o2: LockItem)
    requires GetZNodePath(o1).Ok? && GetZNodePath(o2).Ok?
    requires Separator !in o1.namespace && Separator !in o2.namespace
    ensures GetZNodePath(o1) == GetZNodePath(o2) ==> o1 == o2
  {
    if GetZNodePath(o1) == GetZNodePath(o2) {
      var p1, p2 := GetZNodePath(o1).value, GetZNodePath(o2).value;
      assert p1[1..] == o1.namespace + [Separator] + o1.id;
      assert p2[1..] == o2.namespace + [Separator] + o2.id;
      JoinInjective(Separator, o1.namespace, o1.id, o2.namespace, o2.id);
    }
  }

  /** newLock's path as written: the error is dropped and the empty path used. */
  function LockPathAsWritten(obj: LockItem): (r: string)
    ensures GetZNodePath(obj).Ok? ==> r == GetZNodePath(obj).value
    ensures GetZNodePath(obj).Err? ==> r == ""
  {
    match GetZNodePath(obj)
    case Ok(p) => p
    case Err(_) => ""
  }

  /** As written, two different items missing an id contend for the same lock. */
  lemma SharedEmptyPathAsWritten()
    ensures LockPathAsWritten(LockItem("orders", "")) == LockPathAsWritten(LockItem("users", ""))
    ensures LockPathAsWritten(LockItem("orders", "")) == ""
  {
  }

  /** A lock the zookeeper recipe holds on a path, and the pool connection it uses. */
  datatype ZkLock = ZkLock(path: string, conn: ConnPool.Conn)

  class Locker {
    const pool: ConnPool.Pool

    /** NewZkLocker's pool, for the address read from the configuration. */
    constructor (serverAddr: string)
      ensures fresh(pool) && pool.maxConnections == MaxConnections && pool.maxIdle == MaxIdle
      ensures pool.State() == ConnPool.PoolState(false, [], map[], 0, 0)
    {
      pool := new ConnPool.Pool(MaxConnections, MaxIdle);
    }

    /** newLock as written: a lock on whatever path getZNodePath left, over a pool connection. */
    method NewLockAsWritten(obj: LockItem, env: ConnPool.Env) returns (r: Result<ZkLock>)
      modifies pool
      ensures var (s, c) := ConnPool.GetConnSpec(old(pool.State()), pool.maxConnections, env);
        pool.State() == s && (c.Err? ==> r == Err(c.error)) && (c.Ok? ==> r == Ok(ZkLock(LockPathAsWritten(obj), c.value)))
    {
      var path := LockPathAsWritten(obj);
      var conn := pool.GetConn(env);
      if conn.Err? {
        return Err(conn.error);
      }
      return Ok(ZkLock(path, conn.value));
    }

    /** newLock, corrected: an item without a path is refused before a connection is taken. */
    method NewLock(obj: LockItem, env: ConnPool.Env) returns (r: Result<ZkLock>)
      modifies pool
      ensures GetZNodePath(obj).Err? ==> r == Err(ErrMissingInfo) && pool.State() == old(pool.State())
      ensures GetZNodePath(obj).Ok? ==> var (s, c) := ConnPool.GetConnSpec(old(pool.State()), pool.maxConnections, env);
        pool.State() == s && (c.Err? ==> r == Err(c.error)) && (c.Ok? ==> r == Ok(ZkLock(GetZNodePath(obj).value, c.value)))
    {
      var path := GetZNodePath(obj);
      if path.Err? {
        return Err(path.error);
      }
      var conn := pool.GetConn(env);
      if conn.Err? {
        return Err(conn.error);
      }
      return Ok(ZkLock(path.value, conn.value));
    }

    /**
     * Lock and TryLock: take the zookeeper lock on a new lock object (built
     * by newLock as written, so an incomplete item is locked on the empty
     * path); the recipe's error (`lockErr`) is returned as is, and the
     * connection is then not handed back.
     */
    method Lock(obj: LockItem, env: ConnPool.Env, lockErr: Option<string>) returns (r: Result<ZkLock>)
      modifies pool
      ensures var (s, c) := ConnPool.GetConnSpec(old(pool.State()), pool.maxConnections, env);
        pool.State() == s &&
        (c.Err? ==> r == Err(c.error)) &&
        (c.Ok? && lockErr.Some? ==> r == Err(lockErr.value)) &&
        (c.Ok? && lockErr.None? ==> r == Ok(ZkLock(LockPathAsWritten(obj), c.value)))
    {
      r := NewLockAsWritten(obj, env);
      if r.Ok? && lockErr.Some? {
        r := Err(lockErr.value);
      }
    }

    /**
     * The unlock closure: release the zookeeper lock, then hand its
     * connection back through the pool's connDone as written, which keeps a
     * connection closed at MaxIdle counted as open.
     */
    method Unlock(lk: ZkLock, unlockErr: Option<string>) returns (err: Option<string>)
      modifies pool
      ensures err == unlockErr
      ensures pool.State() == ConnPool.DoneSpec(old(pool.State()), pool.maxIdle, lk.conn, false)
    {
      pool.ConnDoneAsWritten(lk.conn);
      return unlockErr;
    }

    /** Close: the pool's connections go back after each lock, so there is nothing to close. */
    function Close(): (err: Option<string>)
      ensures err.None?
    {
      None
    }
  }

  /** NewZkLocker: the locker for the address read from "zookeeper_hostname" and "zookeeper_port". */
  method NewZkLocker(conf: map<string, Value>) returns (r: Result<Locker>)
    ensures r.Err? <==> ServerAddr(conf, "zookeeper_hostname", "zookeeper_port", ErrNoHost, ErrNoPort).Err?
    ensures r.Err? ==> r.error == ServerAddr(conf, "zookeeper_hostname", "zookeeper_port", ErrNoHost, ErrNoPort).error
    ensures r.Ok? ==> fresh(r.value) && r.value.pool.maxConnections == MaxConnections && r.value.pool.maxIdle == MaxIdle
  {
    var addr := ServerAddr(conf, "zookeeper_hostname", "zookeeper_port", ErrNoHost, ErrNoPort);
    if addr.Err? {
      return Err(addr.error);
    }
    var l := new Locker(addr.value);
    return Ok(l);
  }

  /** As written, Lock takes a lock on the empty path, over a dialled connection, for an item missing its id. */
  method MissingIdLockedAsWritten() returns (r: Result<ZkLock>, open: int)
    ensures r == Ok(ZkLock("", 1)) && open == 1
  {
    var l := new Locker("zk:2181");
    r := l.Lock(LockItem("orders", ""), ConnPool.Env(Ok(1), Err("none"), None, Err("none"), 0), None);
    open := l.pool.openCount;
  }

  /** Corrected, an item missing its id takes no connection and no lock. */
  method MissingIdRefused() returns (r: Result<ZkLock>, open: int)
    ensures r == Err(ErrMissingInfo) && open == 0
  {
    var l := new Locker("zk:2181");
    r := l.NewLock(LockItem("orders", ""), ConnPool.Env(Ok(1), Err("none"), None, Err("none"), 0));
    open := l.pool.openCount;
  }
}
