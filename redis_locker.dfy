/**
 * The redis lock handler (modules/locker/handlers/redis/redis.go).
 *
 * A lock on an item is the redis key "<namespace>.<id>"; taking it sends
 * SET, and the unlock closure sends DEL for the same key. The redis
 * server is a class holding the string keys; whether a connection fails
 * is a parameter.
 *
 * As written, the command is SET key "NX": redis reads "NX" as the value
 * to store, not as the only-if-absent option, so the SET always
 * succeeds and two holders can take the same lock. LockAsWritten models
 * that; Lock sends SET key value NX, which fails with a nil reply while
 * the key is held.
 */
module RedisLocker {
  import opened Wrappers
  import opened LockerCommon

  const Separator := '.'
  const ErrMissingInfo := "Obj is missing information to make that lock"
  const ErrTimeout := "Timeout reached"
  const ErrNoHost := "Redis hostname missing"
  const ErrNoPort := "Redis port missing"
  /** What redis.String reports for a nil reply. */
  const ErrNil := "redigo: nil returned"
  /** The value the corrected SET stores under a held key. */
  const Held := "locked"

  /** getKey: the lock's key, refused when the namespace or the id is empty. */
  function GetKey(doc: LockItem): (r: Result<string>)
    ensures r.Err? <==> doc.namespace == "" || doc.id == ""
    ensures r.Err? ==> r.error == ErrMissingInfo
    ensures r.Ok? ==> r.value == doc.namespace + [Separator] + doc.id
  {
    if doc.namespace == "" || doc.id == "" then Err(ErrMissingInfo)
    else Ok(doc.namespace + [Separator] + doc.id)
  }

  /** Items whose namespaces hold no dot get distinct keys. */
  lemma GetKeyInjective(d1: LockItem, d2: LockItem)
    requires GetKey(d1).Ok? && GetKey(d2).Ok?
    requires Separator !in d1.namespace && Separator !in d2.namespace
    ensures GetKey(d1) == GetKey(d2) ==> d1 == d2
  {
    if GetKey(d1) == GetKey(d2) {
      JoinInjective(Separator, d1.namespace, d1.id, d2.namespace, d2.id);
    }
  }

  /** NewRedisLocker: the pool's server address from "redis_hostname" and "redis_port". */
  function NewRedisLocker(conf: map<string, Value>): (r: Result<string>)
    ensures r == ServerAddr(conf, "redis_hostname", "redis_port", ErrNoHost, ErrNoPort)
  {
    ServerAddr(conf, "redis_hostname", "redis_port", ErrNoHost, ErrNoPort)
  }

  /** The redis server's string keys. */
  class Server {
    var kv: map<string, string>

    constructor (kv: map<string, string>)
      ensures this.kv == kv
    {
      this.kv := kv;
    }

    /** SET key value: always stores, replying OK. */
    method Set(key: string, val: string)
      modifies this
      ensures kv == old(kv)[key := val]
    {
      kv := kv[key := val];
    }

    /** SET key value NX: stores only when the key is absent; otherwise the reply is nil. */
    method SetIfAbsent(key: string, val: string) returns (stored: bool)
      modifies this
      ensures stored <==> key !in old(kv)
      ensures kv == if stored then old(kv)[key := val] else old(kv)
    {
      if key in kv {
        return false;
      }
      kv := kv[key := val];
      return true;
    }

    /** DEL key. */
    method Del(key: string)
      modifies this
      ensures kv == old(kv) - {key}
    {
      kv := kv - {key};
    }
  }

  /**
   * Lock as written; the result is the key its unlock closure deletes.
   * A missing namespace or id fails before any command is sent.
   */
  method LockAsWritten(srv: Server, doc: LockItem, connErr: Option<string>) returns (r: Result<string>)
    modifies srv
    ensures GetKey(doc).Err? ==> r == GetKey(doc) && srv.kv == old(srv.kv)
    ensures GetKey(doc).Ok? && connErr.Some? ==> r == Err(connErr.value) && srv.kv == old(srv.kv)
    ensures GetKey(doc).Ok? && connErr.None? ==> r == GetKey(doc) && srv.kv == old(srv.kv)[r.value := "NX"]
  {
    r := GetKey(doc);
    if r.Err? {
      return;
    }
    if connErr.Some? {
      return Err(connErr.value);
    }
    srv.Set(r.value, "NX");
  }

  /** Lock, corrected: the SET only takes a key nobody holds. */
  method Lock(srv: Server, doc: LockItem, connErr: Option<string>) returns (r: Result<string>)
    modifies srv
    ensures GetKey(doc).Err? ==> r == GetKey(doc) && srv.kv == old(srv.kv)
    ensures GetKey(doc).Ok? && connErr.Some? ==> r == Err(connErr.value) && srv.kv == old(srv.kv)
    ensures GetKey(doc).Ok? && connErr.None? && GetKey(doc).value in old(srv.kv) ==> r == Err(ErrNil) && srv.kv == old(srv.kv)
    ensures GetKey(doc).Ok? && connErr.None? && GetKey(doc).value !in old(srv.kv) ==>
      r == GetKey(doc) && srv.kv == old(srv.kv)[r.value := Held]
  {
    r := GetKey(doc);
    if r.Err? {
      return;
    }
    if connErr.Some? {
      return Err(connErr.value);
    }
    var stored := srv.SetIfAbsent(r.value, Held);
    if !stored {
      return Err(ErrNil);
    }
  }

  /** How TryLock's race ends: the SET's reply arrives first, or the timer fires (the SET may still have been applied). */
  datatype Race = Replied | TimedOut(setApplied: bool)

  /** TryLock, corrected like Lock. */
  method TryLock(srv: Server, doc: LockItem, connErr: Option<string>, race: Race) returns (r: Result<string>)
    modifies srv
    ensures GetKey(doc).Err? ==> r == GetKey(doc) && srv.kv == old(srv.kv)
    ensures GetKey(doc).Ok? && race.TimedOut? ==> r == Err(ErrTimeout)
    ensures GetKey(doc).Ok? && race.Replied? ==>
      (connErr.Some? ==> r == Err(connErr.value) && srv.kv == old(srv.kv)) &&
      (connErr.None? && GetKey(doc).value in old(srv.kv) ==> r == Err(ErrNil) && srv.kv == old(srv.kv)) &&
      (connErr.None? && GetKey(doc).value !in old(srv.kv) ==> r == GetKey(doc) && srv.kv == old(srv.kv)[r.value := Held])
    ensures GetKey(doc).Ok? && race.TimedOut? && (connErr.Some? || !race.setApplied || GetKey(doc).value in old(srv.kv)) ==>
      srv.kv == old(srv.kv)
    ensures GetKey(doc).Ok? && race.TimedOut? && connErr.None? && race.setApplied && GetKey(doc).value !in old(srv.kv) ==>
      srv.kv == old(srv.kv)[GetKey(doc).value := Held]
  {
    var key := GetKey(doc);
    if key.Err? {
      return key;
    }
    if race.TimedOut? {
      if connErr.None? && race.setApplied {
        var _ := srv.SetIfAbsent(key.value, Held);
      }
      return Err(ErrTimeout);
    }
    r := Lock(srv, doc, connErr);
  }

  /** unlock: DEL of the locked key; a failing connection leaves it. */
  method Unlock(srv: Server, key: string, connErr: Option<string>) returns (err: Option<string>)
    modifies srv
    ensures err == connErr
    ensures connErr.None? ==> srv.kv == old(srv.kv) - {key}
    ensures connErr.Some? ==> srv.kv == old(srv.kv)
  {
    if connErr.Some? {
      return connErr;
    }
    srv.Del(key);
    return None;
  }

  /** As written, a second Lock of a held item succeeds too. */
  method TwoHoldersAsWritten() returns (first: Result<string>, second: Result<string>)
    ensures first.Ok? && second.Ok? && first == second
  {
    var srv := new Server(map[]);
    var doc := LockItem("orders", "42");
    first := LockAsWritten(srv, doc, None);
    second := LockAsWritten(srv, doc, None);
  }

  /** Corrected, the second Lock is refused until the first holder unlocks. */
  method OneHolder() returns (first: Result<string>, second: Result<string>, third: Result<string>)
    ensures first.Ok? && second == Err(ErrNil) && third == first
  {
    var srv := new Server(map[]);
    var doc := LockItem("orders", "42");
    first := Lock(srv, doc, None);
    second := Lock(srv, doc, None);
    var _ := Unlock(srv, first.value, None);
    third := Lock(srv, doc, None);
  }

  /** Lock then unlock leaves the server without the key, and every other key as it was. */
  method LockThenUnlock(srv: Server, doc: LockItem) returns (r: Result<string>)
    modifies srv
    ensures r.Ok? <==> GetKey(doc).Ok? && GetKey(doc).value !in old(srv.kv)
    ensures r.Ok? ==> srv.kv == old(srv.kv)
  {
    r := Lock(srv, doc, None);
    if r.Ok? {
      var _ := Unlock(srv, r.value, None);
      assert old(srv.kv)[r.value := Held] - {r.value} == old(srv.kv);
    }
  }
}
