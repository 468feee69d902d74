/**
 * What the redis and zookeeper lock handlers share
 * (modules/locker/handlers/redis/redis.go and
 * modules/locker/handlers/zookeeper/zookeeper.go): the item a lock is
 * taken on, and the host and port both read from a configuration of
 * arbitrary Go values through type assertions.
 */
module LockerCommon {
  import opened Wrappers

  /** The store item a lock is taken on; only its namespace and id matter. */
  datatype LockItem = LockItem(namespace: string, id: string)

  /** A configuration entry, as a type assertion sees it. */
  datatype Value = StrVal(s: string) | IntVal(n: int) | OtherVal

  /** The "%s:%d" server address from a string host entry and an int port entry. */
  function ServerAddr(conf: map<string, Value>, hostKey: string, portKey: string, noHost: string, noPort: string): (r: Result<string>)
    ensures (hostKey !in conf || !conf[hostKey].StrVal?) ==> r == Err(noHost)
    ensures hostKey in conf && conf[hostKey].StrVal? && (portKey !in conf || !conf[portKey].IntVal?) ==> r == Err(noPort)
    ensures r.Ok? <==> hostKey in conf && conf[hostKey].StrVal? && portKey in conf && conf[portKey].IntVal?
    ensures r.Ok? ==> r.value == conf[hostKey].s + ":" + Decimal(conf[portKey].n)
  {
    if hostKey !in conf || !conf[hostKey].StrVal? then Err(noHost)
    else if portKey !in conf || !conf[portKey].IntVal? then Err(noPort)
    else Ok(conf[hostKey].s + ":" + Decimal(conf[portKey].n))
  }

  /** The host comes before the first colon when it holds none itself. */
  lemma AddrStartsWithHost(conf: map<string, Value>, hostKey: string, portKey: string, noHost: string, noPort: string)
    requires ServerAddr(conf, hostKey, portKey, noHost, noPort).Ok? && ':' !in conf[hostKey].s
    ensures var addr := ServerAddr(conf, hostKey, portKey, noHost, noPort).value;
      var h := conf[hostKey].s;
      |addr| > |h| && addr[..|h|] == h && addr[|h|] == ':'
  {
  }

  /** The first separator of `a + [sep] + b` sits right after `a`. */
  lemma FirstSeparator(sep: char, a: string, b: string)
    requires sep !in a
    ensures (a + [sep] + b)[|a|] == sep
    ensures forall i :: 0 <= i < |a| ==> (a + [sep] + b)[i] != sep
  {
    assert forall i :: 0 <= i < |a| ==> (a + [sep] + b)[i] == a[i];
  }

  /** Two items joined with a separator neither part holds give the same key only when they are the same item. */
  lemma {:induction false} JoinInjective(sep: char, a1: string, b1: string, a2: string, b2: string)
    requires sep !in a1 && sep !in a2
    requires a1 + [sep] + b1 == a2 + [sep] + b2
    ensures a1 == a2 && b1 == b2
  {
    var k1, k2 := a1 + [sep] + b1, a2 + [sep] + b2;
    FirstSeparator(sep, a1, b1);
    FirstSeparator(sep, a2, b2);
    assert a1 == k1[..|a1|] && a2 == k2[..|a2|];
    assert b1 == k1[|a1| + 1..] && b2 == k2[|a2| + 1..];
  }
}
