/**
 * The redis-backed item store (modules/store/handlers/redis).
 *
 * Values are stored under [dbName_]namespace_id; items that track time are
 * also indexed in the sorted sets created_<ns> and updated_<ns>, scored by
 * their timestamps. The server is modelled as its string keys and sorted
 * sets, and each command's error reply is a parameter (absent: success).
 * List first collects keys (a SCAN walk for the natural order, one range
 * query for the time orders), skipping Page*Limit of them and keeping at
 * most Limit, then reads each key into the caller's next item.
 */
module RedisStore {
  import opened Wrappers
  import BoltDb

  type Bytes = BoltDb.Bytes

  /** The error redigo returns for a GET of a missing key. */
  const ErrNil := "redigo: nil returned"

  /** An item: key parts, the interfaces it implements, what Marshal returns. */
  datatype Item = Item(namespace: string, id: string, idSetter: bool, timeTracker: bool, exportable: bool, marshalled: Result<Bytes>)

  /** storeKey: the database name (when set), the namespace and the id, joined by "_". */
  function StoreKey(dbName: string, i: Item): (r: string)
    ensures |dbName| > 0 ==> r == dbName + "_" + i.namespace + "_" + i.id
    ensures |dbName| == 0 ==> r == i.namespace + "_" + i.id
  {
    if |dbName| > 0 then dbName + "_" + i.namespace + "_" + i.id else i.namespace + "_" + i.id
  }

  /** The item as Create sees it after SetId. */
  function WithNewId(i: Item, newId: string): (r: Item)
    ensures r.id == (if i.idSetter then newId else i.id)
    ensures r.namespace == i.namespace && r.timeTracker == i.timeTracker && r.exportable == i.exportable && r.marshalled == i.marshalled
  {
    if i.idSetter then i.(id := newId) else i
  }

  function CreatedIndex(ns: string): string { "created_" + ns }
  function UpdatedIndex(ns: string): string { "updated_" + ns }

  // ---------------------------------------------------------------------
  // The server

  datatype Cmd = ZAdd(zset: string, score: int, member: string) | ZRem(zset: string, member: string) | SetCmd(key: string, val: Bytes) | Del(key: string)

  /** The server's data: string keys and sorted sets (member to score). */
  datatype Db = Db(kv: map<string, Bytes>, zsets: map<string, map<string, int>>)

  /** The members and scores of a sorted set (none when absent). */
  function ZSet(d: Db, z: string): map<string, int>
  {
    if z in d.zsets then d.zsets[z] else map[]
  }

  /** What a successful command does. */
  function Exec(d: Db, c: Cmd): (r: Db)
    ensures c.ZAdd? ==> r.kv == d.kv && ZSet(r, c.zset) == ZSet(d, c.zset)[c.member := c.score]
    ensures c.ZRem? ==> r.kv == d.kv && ZSet(r, c.zset) == ZSet(d, c.zset) - {c.member}
    ensures (c.ZAdd? || c.ZRem?) ==> forall z :: z != c.zset ==> ZSet(r, z) == ZSet(d, z)
    ensures c.SetCmd? ==> r.zsets == d.zsets && r.kv == d.kv[c.key := c.val]
    ensures c.Del? ==> r.zsets == d.zsets && r.kv == d.kv - {c.key}
  {
    match c
    case ZAdd(z, s, m) => d.(zsets := d.zsets[z := ZSet(d, z)[m := s]])
    case ZRem(z, m) => d.(zsets := d.zsets[z := ZSet(d, z) - {m}])
    case SetCmd(k, v) => d.(kv := d.kv[k := v])
    case Del(k) => d.(kv := d.kv - {k})
  }

  /** The error reply to the n-th command of an operation, if any. */
  function Reply(replies: seq<Option<string>>, n: nat): Option<string>
  {
    if n < |replies| then replies[n] else None
  }

  class Server {
    var db: Db

    constructor ()
      ensures db == Db(map[], map[])
    {
      db := Db(map[], map[]);
    }

    /** One command: applied on success, nothing changes on an error reply. */
    method Do(c: Cmd, reply: Option<string>) returns (err: Option<string>)
      modifies this
      ensures err == reply
      ensures db == if reply.None? then Exec(old(db), c) else old(db)
    {
      if reply.None? {
        db := Exec(db, c);
      }
      return reply;
    }
  }

  // ---------------------------------------------------------------------
  // Create, Update, Delete, Read as values

  /** The command Create issues for each step, in order: two index entries for a time tracker, then the value. */
  function CreateCmds(key: string, i: Item, now: int): seq<Cmd>
  {
    (if i.timeTracker then [ZAdd(CreatedIndex(i.namespace), now, key), ZAdd(UpdatedIndex(i.namespace), now, key)] else [])
    + (if i.exportable && i.marshalled.Ok? then [SetCmd(key, i.marshalled.value)] else [])
  }

  /** Update's commands: for a time tracker, drop then re-add the updated entry; then the value. */
  function UpdateCmds(key: string, i: Item, now: int): seq<Cmd>
  {
    (if i.timeTracker then [ZRem(UpdatedIndex(i.namespace), key), ZAdd(UpdatedIndex(i.namespace), now, key)] else [])
    + (if i.exportable && i.marshalled.Ok? then [SetCmd(key, i.marshalled.value)] else [])
  }

  /** Running commands in order until the first error reply: the data after, and which command failed with what. */
  function Run(d: Db, cmds: seq<Cmd>, replies: seq<Option<string>>, k: nat): (r: (Db, Option<(nat, string)>))
    requires k <= |cmds|
    ensures r.1.Some? ==> k <= r.1.value.0 < |cmds| && Reply(replies, r.1.value.0) == Some(r.1.value.1)
    ensures r.1.None? ==> forall n :: k <= n < |cmds| ==> Reply(replies, n).None?
    decreases |cmds| - k
  {
    if k == |cmds| then (d, None)
    else if Reply(replies, k).Some? then (d, Some((k, Reply(replies, k).value)))
    else Run(Exec(d, cmds[k]), cmds, replies, k + 1)
  }

  /** The message for a failed step. */
  function StepErr(c: Cmd, ns: string, key: string, creating: bool, e: string): string
  {
    match c
    case ZAdd(z, _, _) =>
      if creating && z == CreatedIndex(ns) then "error creating created time index " + key + ": " + e
      else if creating then "error creating updated time index " + key + ": " + e
      else "error updating updated time index " + key + ": " + e
    case ZRem(_, _) => "error removing updated time index " + key + ": " + e
    case SetCmd(_, v) => "error setting key " + key + " to " + BoltDb.Abbrev(v) + ": " + e
    case Del(_) => "error deleting key " + key + ": " + e
  }

  /** The error once every command went through: unsupported items and marshal failures. */
  function ItemErr(key: string, i: Item): Option<string>
  {
    if !i.exportable then Some(BoltDb.ErrUnsupported)
    else if i.marshalled.Err? then Some("error marshalling key " + key + ": " + i.marshalled.error)
    else None
  }

  /** What a Create or Update leaves and returns. */
  function Outcome(d: Db, cmds: seq<Cmd>, key: string, i: Item, creating: bool, replies: seq<Option<string>>): (Db, Option<string>)
  {
    var run := Run(d, cmds, replies, 0);
    match run.1
    case Some((n, e)) => (run.0, Some(StepErr(cmds[n], i.namespace, key, creating, e)))
    case None => (run.0, ItemErr(key, i))
  }

  /**
   * A time-tracked item created without error is indexed in both sorted
   * sets at its creation time and stored under its key.
   */
  lemma CreateIndexesAndStores(d: Db, key: string, i: Item, now: int, val: Bytes)
    requires i.timeTracker && i.exportable && i.marshalled == Ok(val)
    ensures var r := Outcome(d, CreateCmds(key, i, now), key, i, true, []);
      r.1.None? && r.0.kv == d.kv[key := val]
      && key in ZSet(r.0, CreatedIndex(i.namespace)) && ZSet(r.0, CreatedIndex(i.namespace))[key] == now
      && key in ZSet(r.0, UpdatedIndex(i.namespace)) && ZSet(r.0, UpdatedIndex(i.namespace))[key] == now
  {
    var cmds := CreateCmds(key, i, now);
    var d1 := Exec(d, cmds[0]);
    var d2 := Exec(d1, cmds[1]);
    var d3 := Exec(d2, cmds[2]);
    assert Run(d, cmds, [], 0) == Run(d1, cmds, [], 1) == Run(d2, cmds, [], 2) == Run(d3, cmds, [], 3) == (d3, None);
    assert CreatedIndex(i.namespace) != UpdatedIndex(i.namespace) by {
      assert CreatedIndex(i.namespace)[0] != UpdatedIndex(i.namespace)[0];
    }
  }

  /**
   * The index entries go in before the value: when the SET fails, the
   * item is indexed but nothing is stored under its key.
   */
  lemma FailedSetLeavesIndexes(d: Db, key: string, i: Item, now: int, val: Bytes, e: string)
    requires i.timeTracker && i.exportable && i.marshalled == Ok(val) && key !in d.kv
    ensures var r := Outcome(d, CreateCmds(key, i, now), key, i, true, [None, None, Some(e)]);
      r.1 == Some("error setting key " + key + " to " + BoltDb.Abbrev(val) + ": " + e)
      && key !in r.0.kv && key in ZSet(r.0, CreatedIndex(i.namespace)) && key in ZSet(r.0, UpdatedIndex(i.namespace))
  {
    var cmds := CreateCmds(key, i, now);
    var replies := [None, None, Some(e)];
    var d1 := Exec(d, cmds[0]);
    var d2 := Exec(d1, cmds[1]);
    assert Run(d, cmds, replies, 0) == Run(d1, cmds, replies, 1) == Run(d2, cmds, replies, 2);
    assert CreatedIndex(i.namespace) != UpdatedIndex(i.namespace) by {
      assert CreatedIndex(i.namespace)[0] != UpdatedIndex(i.namespace)[0];
    }
  }

  /** An update moves the item's updated entry to the new time and leaves the created index alone. */
  lemma UpdateReindexes(d: Db, key: string, i: Item, now: int, val: Bytes)
    requires i.timeTracker && i.exportable && i.marshalled == Ok(val)
    ensures var r := Outcome(d, UpdateCmds(key, i, now), key, i, false, []);
      r.1.None? && r.0.kv == d.kv[key := val]
      && ZSet(r.0, UpdatedIndex(i.namespace)) == ZSet(d, UpdatedIndex(i.namespace))[key := now]
      && ZSet(r.0, CreatedIndex(i.namespace)) == ZSet(d, CreatedIndex(i.namespace))
  {
    var cmds := UpdateCmds(key, i, now);
    var d1 := Exec(d, cmds[0]);
    var d2 := Exec(d1, cmds[1]);
    var d3 := Exec(d2, cmds[2]);
    assert Run(d, cmds, [], 0) == Run(d1, cmds, [], 1) == Run(d2, cmds, [], 2) == Run(d3, cmds, [], 3) == (d3, None);
    assert CreatedIndex(i.namespace) != UpdatedIndex(i.namespace) by {
      assert CreatedIndex(i.namespace)[0] != UpdatedIndex(i.namespace)[0];
    }
    assert ZSet(d1, UpdatedIndex(i.namespace))[key := now] == ZSet(d, UpdatedIndex(i.namespace))[key := now];
  }

  /** What Read gives: the GET's bytes handed to Unmarshal, or the error on the way. */
  function ReadResult(d: Db, key: string, i: Item, getErr: Option<string>, unmarshalErr: Option<string>): (r: Result<Bytes>)
    ensures r.Ok? <==> getErr.None? && key in d.kv && i.exportable && unmarshalErr.None?
    ensures r.Ok? ==> r.value == d.kv[key]
    ensures getErr.None? && key !in d.kv ==> r == Err("error getting key " + key + ": " + ErrNil)
  {
    if getErr.Some? then Err("error getting key " + key + ": " + getErr.value)
    else if key !in d.kv then Err("error getting key " + key + ": " + ErrNil)
    else if !i.exportable then Err(BoltDb.ErrUnsupported)
    else if unmarshalErr.Some? then Err("error unmarshalling data " + BoltDb.Abbrev(d.kv[key]) + " to " + key + ": " + unmarshalErr.value)
    else Ok(d.kv[key])
  }

  // ---------------------------------------------------------------------
  // The handler

  class RedisHandler {
    const dbName: string

    constructor (dbName: string)
      ensures this.dbName == dbName
    {
      this.dbName := dbName;
    }

    /** Create: SetId, the two index entries for a time tracker, the type and marshal checks, then SET. */
    method Create(srv: Server, i0: Item, newId: string, now: int, replies: seq<Option<string>>) returns (err: Option<string>)
      modifies srv
      ensures var i := WithNewId(i0, newId);
        (srv.db, err) == Outcome(old(srv.db), CreateCmds(StoreKey(dbName, i), i, now), StoreKey(dbName, i), i, true, replies)
    {
      var i := WithNewId(i0, newId);
      var key := StoreKey(dbName, i);
      ghost var cmds := CreateCmds(key, i, now);
      ghost var d0 := srv.db;
      var n := 0;
      if i.timeTracker {
        var e := srv.Do(ZAdd(CreatedIndex(i.namespace), now, key), Reply(replies, 0));
        if e.Some? {
          return Some("error creating created time index " + key + ": " + e.value);
        }
        assert Run(d0, cmds, replies, 0) == Run(srv.db, cmds, replies, 1);
        e := srv.Do(ZAdd(UpdatedIndex(i.namespace), now, key), Reply(replies, 1));
        if e.Some? {
          assert UpdatedIndex(i.namespace) != CreatedIndex(i.namespace) by {
            assert UpdatedIndex(i.namespace)[0] != CreatedIndex(i.namespace)[0];
          }
          return Some("error creating updated time index " + key + ": " + e.value);
        }
        n := 2;
      }
      assert Run(d0, cmds, replies, 0) == Run(srv.db, cmds, replies, n);
      if i.exportable {
        if i.marshalled.Err? {
          return Some("error marshalling key " + key + ": " + i.marshalled.error);
        }
        var val := i.marshalled.value;
        var e := srv.Do(SetCmd(key, val), Reply(replies, n));
        if e.Some? {
          return Some("error setting key " + key + " to " + BoltDb.Abbrev(val) + ": " + e.value);
        }
        return None;
      }
      return Some(BoltDb.ErrUnsupported);
    }

    /** Update: for a time tracker ZREM then ZADD of the updated entry, then the type and marshal checks and SET. */
    method Update(srv: Server, i: Item, now: int, replies: seq<Option<string>>) returns (err: Option<string>)
      modifies srv
      ensures (srv.db, err) == Outcome(old(srv.db), UpdateCmds(StoreKey(dbName, i), i, now), StoreKey(dbName, i), i, false, replies)
    {
      var key := StoreKey(dbName, i);
      ghost var cmds := UpdateCmds(key, i, now);
      ghost var d0 := srv.db;
      var n := 0;
      if i.timeTracker {
        var e := srv.Do(ZRem(UpdatedIndex(i.namespace), key), Reply(replies, 0));
        if e.Some? {
          return Some("error removing updated time index " + key + ": " + e.value);
        }
        assert Run(d0, cmds, replies, 0) == Run(srv.db, cmds, replies, 1);
        e := srv.Do(ZAdd(UpdatedIndex(i.namespace), now, key), Reply(replies, 1));
        if e.Some? {
          return Some("error updating updated time index " + key + ": " + e.value);
        }
        n := 2;
      }
      assert Run(d0, cmds, replies, 0) == Run(srv.db, cmds, replies, n);
      if i.exportable {
        if i.marshalled.Err? {
          return Some("error marshalling key " + key + ": " + i.marshalled.error);
        }
        var val := i.marshalled.value;
        var e := srv.Do(SetCmd(key, val), Reply(replies, n));
        if e.Some? {
          return Some("error setting key " + key + " to " + BoltDb.Abbrev(val) + ": " + e.value);
        }
        return None;
      }
      return Some(BoltDb.ErrUnsupported);
    }

    /** Delete: DEL of the key. */
    method Delete(srv: Server, i: Item, reply: Option<string>) returns (err: Option<string>)
      modifies srv
      ensures reply.None? ==> err.None? && srv.db == Exec(old(srv.db), Del(StoreKey(dbName, i)))
      ensures reply.Some? ==> err == Some("error deleting key " + StoreKey(dbName, i) + ": " + reply.value) && srv.db == old(srv.db)
    {
      var key := StoreKey(dbName, i);
      var e := srv.Do(Del(key), reply);
      if e.Some? {
        return Some("error deleting key " + key + ": " + e.value);
      }
      return None;
    }

    /**
     * List, scanning the natural order with the pattern as written, which
     * ignores the database name (see AsWrittenPatternMissesKeys).
     */
    method List(srv: Server, l: seq<BoltDb.Slot>, ns: string, o: ListOpt, scan: seq<Result<ScanReply>>, range: Result<seq<string>>)
      returns (r: BoltDb.Listed, given: seq<Bytes>, query: Query)
      ensures r == ListSpec(srv.db.kv, l, o, scan, range)
      ensures 0 <= o.limit <= |l| && |l| > 0 && o.sort == SortNatural ==> query == ScanMatch(ScanPatternAsWritten(ns))
    {
      r, given, query := ListWith(srv, l, ns, ScanPatternAsWritten(ns), o, scan, range);
    }

    /** Read: GET, then Unmarshal into the item. */
    method Read(srv: Server, i: Item, getErr: Option<string>, unmarshalErr: Option<string>) returns (r: Result<Bytes>)
      ensures r == ReadResult(srv.db, StoreKey(dbName, i), i, getErr, unmarshalErr)
    {
      var key := StoreKey(dbName, i);
      if getErr.Some? {
        return Err("error getting key " + key + ": " + getErr.value);
      }
      if key !in srv.db.kv {
        return Err("error getting key " + key + ": " + ErrNil);
      }
      var val := srv.db.kv[key];
      if !i.exportable {
        return Err(BoltDb.ErrUnsupported);
      }
      if unmarshalErr.Some? {
        return Err("error unmarshalling data " + BoltDb.Abbrev(val) + " to " + key + ": " + unmarshalErr.value);
      }
      return Ok(val);
    }
  }

  // ---------------------------------------------------------------------
  // List

  const SortNatural := 0
  const SortCreatedDesc := 1
  const SortCreatedAsc := 2
  const SortUpdatedDesc := 3
  const SortUpdatedAsc := 4

  const ErrSliceBounds := "slice bounds out of range"
  const ErrMakeChan := "makechan: size out of range"

  datatype ListOpt = ListOpt(page: int, limit: int, sort: int, version: int)

  /** One SCAN reply: the next cursor and a batch of keys. */
  datatype ScanReply = ScanReply(cursor: int, keys: seq<string>)

  /** The keys collected for List and the error that ended the collection, or a panic. */
  datatype Keys = Keys(keys: seq<string>, err: Option<string>) | KeysPanic

  /**
   * A page of `ks`: drop the first `skip`, then keep at most `limit`
   * (a limit below 1 keeps everything, as count never meets it).
   */
  function Page(ks: seq<string>, skip: nat, limit: int): (r: seq<string>)
    ensures skip >= |ks| ==> r == []
    ensures skip <= |ks| ==> |r| <= |ks| - skip && r == ks[skip..][..|r|]
    ensures limit >= 1 ==> |r| == if |ks| - skip > limit then limit else if skip <= |ks| then |ks| - skip else 0
    ensures limit < 1 ==> |r| == if skip <= |ks| then |ks| - skip else 0
  {
    var rest := if skip <= |ks| then ks[skip..] else [];
    if limit >= 1 && |rest| > limit then rest[..limit] else rest
  }

  /** Whether a page already holds Limit keys. */
  predicate Full(p: seq<string>, limit: int)
  {
    limit >= 1 && |p| == limit
  }

  /** A full page stays the same whatever keys follow. */
  lemma FullPageStays(a: seq<string>, b: seq<string>, skip: nat, limit: int)
    requires Full(Page(a, skip, limit), limit)
    ensures Page(a + b, skip, limit) == Page(a, skip, limit)
  {
    assert (a + b)[skip..][..limit] == a[skip..][..limit];
  }

  /**
   * The page over more keys, batch by batch: the skip still pending after
   * `a` is applied to the next batch, and only the room left in the page is
   * filled from it.
   */
  lemma PageAppend(a: seq<string>, k: seq<string>, skip0: nat, limit: int)
    requires !Full(Page(a, skip0, limit), limit)
    ensures var skip := if skip0 > |a| then skip0 - |a| else 0;
      var p := Page(a, skip0, limit);
      Page(a + k, skip0, limit) == p + Page(k, skip, if limit >= 1 then limit - |p| else limit)
  {
    if skip0 <= |a| {
      assert (a + k)[skip0..] == a[skip0..] + k;
    } else if skip0 <= |a + k| {
      assert (a + k)[skip0..] == k[skip0 - |a|..];
    }
  }

  /** The keys of the SCAN replies up to the one that returns cursor 0, and the first error reply's error. */
  function ScanTrace(replies: seq<Result<ScanReply>>): (r: (seq<string>, Option<string>))
    decreases |replies|
  {
    if replies == [] then ([], None)
    else match replies[0]
      case Err(e) => ([], Some(e))
      case Ok(rep) =>
        if rep.cursor == 0 then (rep.keys, None)
        else var t := ScanTrace(replies[1..]); (rep.keys + t.0, t.1)
  }

  /** The zset and the lowest score a time-ordered List queries; both orders use the same ascending range. */
  function RangeQuery(o: ListOpt, ns: string): (r: (string, string))
    ensures o.sort == SortCreatedAsc || o.sort == SortCreatedDesc ==> r.0 == CreatedIndex(ns)
    ensures o.sort != SortCreatedAsc && o.sort != SortCreatedDesc ==> r.0 == UpdatedIndex(ns)
    ensures r.1 == if o.version != 0 then Decimal(o.version) else "-inf"
  {
    (if o.sort == SortCreatedAsc || o.sort == SortCreatedDesc then CreatedIndex(ns) else UpdatedIndex(ns),
     if o.version != 0 then Decimal(o.version) else "-inf")
  }

  /**
   * getKeys as a value: the natural order pages across the SCAN batches,
   * the time orders page the one range reply, an unknown order collects
   * nothing. A negative Page*Limit panics at the first batch handled.
   */
  function KeysSpec(o: ListOpt, scan: seq<Result<ScanReply>>, range: Result<seq<string>>): (r: Keys)
    ensures r.KeysPanic? ==> o.page * o.limit < 0
    ensures r.Keys? && o.limit >= 1 ==> |r.keys| <= o.limit
    ensures o.sort == SortNatural && o.page * o.limit >= 0 ==>
      r.Keys? && (o.page * o.limit >= |ScanTrace(scan).0| ==> r.keys == []) &&
      (o.page * o.limit <= |ScanTrace(scan).0| ==> (
        |r.keys| <= |ScanTrace(scan).0| - o.page * o.limit &&
        r.keys == ScanTrace(scan).0[o.page * o.limit..][..|r.keys|]))
    ensures o.sort != SortNatural && !(SortCreatedDesc <= o.sort <= SortUpdatedAsc) ==> r == Keys([], None)
  {
    var skip0 := o.page * o.limit;
    if o.sort == SortNatural then
      if skip0 < 0 then
        if scan != [] && scan[0].Ok? then KeysPanic
        else Keys([], if scan != [] then Some(scan[0].error) else None)
      else
        var t := ScanTrace(scan);
        var p := Page(t.0, skip0, o.limit);
        Keys(p, if t.1.Some? && !Full(p, o.limit) then t.1 else None)
    else if SortCreatedDesc <= o.sort <= SortUpdatedAsc then
      if range.Err? then Keys([], Some(range.error))
      else if skip0 < 0 then KeysPanic
      else Keys(Page(range.value, skip0, o.limit), None)
    else Keys([], None)
  }

  /**
   * handleArr: a batch shorter than the pending skip only reduces it;
   * otherwise the rest of the batch is sent key by key until the page
   * is full.
   */
  method HandleArr(skip: int, count: nat, limit: int, k: seq<string>) returns (skip2: int, sent: seq<string>, full: bool, panicked: bool)
    requires limit >= 1 ==> count < limit
    ensures panicked <==> |k| >= skip && skip < 0
    ensures !panicked && |k| < skip ==> skip2 == skip - |k| && sent == [] && !full
    ensures !panicked && |k| >= skip ==> sent == Page(k, skip, if limit >= 1 then limit - count else limit)
    ensures !panicked && |k| >= skip ==> (full <==> Full(sent, if limit >= 1 then limit - count else limit))
    ensures !panicked && |k| >= skip && !full ==> skip2 == 0
  {
    sent, full, panicked := [], false, false;
    if |k| < skip {
      return skip - |k|, sent, full, panicked;
    }
    if skip < 0 {
      return skip, sent, full, true;
    }
    var j := skip;
    var c := count;
    while j < |k|
      invariant skip <= j <= |k| && sent == k[skip..j] && c == count + |sent|
      invariant limit >= 1 ==> c < limit
    {
      sent := sent + [k[j]];
      c := c + 1;
      j := j + 1;
      if c == limit {
        assert sent == k[skip..][..|sent|];
        return skip, sent, true, false;
      }
    }
    return 0, sent, false, false;
  }

  /** The query getKeys sends: a SCAN with a MATCH pattern, or a score range on a sorted set. */
  datatype Query = ScanMatch(pattern: string) | RangeByScore(zset: string, min: string) | NoQuery

  /**
   * getKeys: the sent keys, the error it reported (if any) and the query
   * it issued; `pattern` is the SCAN pattern for the natural order.
   */
  method GetKeys(o: ListOpt, ns: string, pattern: string, scan: seq<Result<ScanReply>>, range: Result<seq<string>>)
    returns (r: Keys, query: Query)
    ensures r == KeysSpec(o, scan, range)
    ensures o.sort == SortNatural ==> query == ScanMatch(pattern)
    ensures SortCreatedDesc <= o.sort <= SortUpdatedAsc ==> query == RangeByScore(RangeQuery(o, ns).0, RangeQuery(o, ns).1)
    ensures (o.sort < SortNatural || o.sort > SortUpdatedAsc) ==> query == NoQuery
  {
    query := NoQuery;
    var skip := o.page * o.limit;
    if o.sort == SortNatural {
      query := ScanMatch(pattern);
      r := ScanKeys(skip, o.limit, scan);
    } else if SortCreatedDesc <= o.sort <= SortUpdatedAsc {
      query := RangeByScore(RangeQuery(o, ns).0, RangeQuery(o, ns).1);
      if range.Err? {
        return Keys([], Some(range.error)), query;
      }
      var skip2, sent, full, panicked := HandleArr(skip, 0, o.limit, range.value);
      if panicked {
        return KeysPanic, query;
      }
      if |range.value| < skip {
        assert Page(range.value, skip, o.limit) == [];
      }
      r := Keys(sent, None);
    } else {
      r := Keys([], None);
    }
  }

  /** One SCAN reply that continues the walk: its keys come first in the rest of the trace. */
  lemma TraceStep(scan: seq<Result<ScanReply>>, i: nat)
    requires i < |scan| && scan[i].Ok? && scan[i].value.cursor != 0
    ensures ScanTrace(scan[i..]) == (scan[i].value.keys + ScanTrace(scan[i + 1..]).0, ScanTrace(scan[i + 1..]).1)
  {
    assert scan[i..][1..] == scan[i + 1..];
  }

  /** The SCAN reply that ends the walk, by error or by cursor 0. */
  lemma TraceEnd(scan: seq<Result<ScanReply>>, i: nat)
    requires i < |scan| && (scan[i].Err? || scan[i].value.cursor == 0)
    ensures scan[i].Err? ==> ScanTrace(scan[i..]) == ([], Some(scan[i].error))
    ensures scan[i].Ok? ==> ScanTrace(scan[i..]) == (scan[i].value.keys, None)
  {
  }

  /** The SCAN walk of getKeys for the natural order. */
  method ScanKeys(skip0: int, limit: int, scan: seq<Result<ScanReply>>) returns (r: Keys)
    ensures skip0 < 0 ==> r == (if scan != [] && scan[0].Ok? then KeysPanic else Keys([], if scan != [] then Some(scan[0].error) else None))
    ensures skip0 >= 0 ==> var t := ScanTrace(scan); var p := Page(t.0, skip0, limit);
      r == Keys(p, if t.1.Some? && !Full(p, limit) then t.1 else None)
  {
    if skip0 < 0 {
      if scan == [] {
        return Keys([], None);
      }
      if scan[0].Err? {
        return Keys([], Some(scan[0].error));
      }
      var _, _, _, panicked := HandleArr(skip0, 0, limit, scan[0].value.keys);
      return KeysPanic;
    }
    r := ScanFrom(skip0, limit, scan);
  }

  /** The walk for a non-negative skip. */
  method ScanFrom(skip0: nat, limit: int, scan: seq<Result<ScanReply>>) returns (r: Keys)
    ensures var t := ScanTrace(scan); var p := Page(t.0, skip0, limit);
      r == Keys(p, if t.1.Some? && !Full(p, limit) then t.1 else None)
  {
    var skip: int := skip0;
    var emitted: seq<string> := [];
    var i := 0;
    ghost var seen: seq<string> := [];
    ghost var t := ScanTrace(scan);
    assert scan[i..] == scan;
    assert seen + t.0 == t.0;
    while i < |scan|
      invariant 0 <= i <= |scan|
      invariant skip == if skip0 > |seen| then skip0 - |seen| else 0
      invariant emitted == Page(seen, skip0, limit) && !Full(emitted, limit)
      invariant t.0 == seen + ScanTrace(scan[i..]).0 && t.1 == ScanTrace(scan[i..]).1
    {
      if scan[i].Err? {
        TraceEnd(scan, i);
        assert seen + [] == seen;
        return Keys(emitted, Some(scan[i].error));
      }
      var rep := scan[i].value;
      var skip2, sent, full, _ := HandleArr(skip, |emitted|, limit, rep.keys);
      PageAppend(seen, rep.keys, skip0, limit);
      if |rep.keys| < skip {
        assert Page(rep.keys, skip, if limit >= 1 then limit - |emitted| else limit) == [];
      }
      emitted := emitted + sent;
      if full {
        ghost var after := if rep.cursor == 0 then [] else ScanTrace(scan[i + 1..]).0;
        if rep.cursor == 0 {
          TraceEnd(scan, i);
        } else {
          TraceStep(scan, i);
        }
        assert t.0 == (seen + rep.keys) + after;
        FullPageStays(seen + rep.keys, after, skip0, limit);
        return Keys(emitted, None);
      }
      if rep.cursor == 0 {
        TraceEnd(scan, i);
        assert t.0 == seen + rep.keys;
        return Keys(emitted, None);
      }
      TraceStep(scan, i);
      assert t.0 == (seen + rep.keys) + ScanTrace(scan[i + 1..]).0;
      seen := seen + rep.keys;
      skip := skip2;
      i := i + 1;
    }
    assert scan[i..] == [];
    assert seen + [] == seen;
    return Keys(emitted, None);
  }

  /**
   * The reader side of List: GET each collected key and unmarshal it into
   * the next item, stopping at the first failure.
   */
  function Consume(l: seq<BoltDb.Slot>, keys: seq<string>, kv: map<string, Bytes>, idx: nat): (r: BoltDb.Listed)
    requires idx <= |keys|
    ensures r.Listed? ==> idx <= r.n <= |keys|
    ensures r.Listed? && idx <= |l| ==> r.n <= |l|
    ensures r.Listed? && r.err.None? ==> r.n == |keys|
    ensures !r.Hang?
    decreases |keys| - idx
  {
    if idx == |keys| then BoltDb.Listed(idx, None)
    else if idx >= |l| then BoltDb.Panic(BoltDb.ErrIndexOutOfRange)
    else if keys[idx] !in kv then BoltDb.Listed(idx, Some(ErrNil))
    else if !l[idx].exportable then BoltDb.Listed(idx, Some(BoltDb.ErrUnsupported))
    else if l[idx].unmarshalErr.Some? then BoltDb.Listed(idx, Some(l[idx].unmarshalErr.value))
    else Consume(l, keys, kv, idx + 1)
  }

  /**
   * Whether the collector is left blocked: with Limit 0 the key channel is
   * unbuffered, so once the reader stops at key n the collector waits for
   * ever to send key n + 1, and wg.Wait never returns.
   */
  predicate Blocks(limit: int, n: nat, sent: seq<string>)
  {
    limit == 0 && n + 1 < |sent|
  }

  /**
   * List as a value, with the reader draining every sent key before it
   * sees the collector's error. Too few items fail first; a negative Limit
   * panics in make; no items at all panic on l[0].
   */
  function ListSpec(kv: map<string, Bytes>, l: seq<BoltDb.Slot>, o: ListOpt, scan: seq<Result<ScanReply>>, range: Result<seq<string>>): (r: BoltDb.Listed)
    ensures |l| < o.limit ==> r == BoltDb.Listed(0, Some(BoltDb.ErrInsufficient(BoltDb.ListOpt(o.page, o.limit), |l|)))
    ensures |l| >= o.limit && o.limit < 0 ==> r == BoltDb.Panic(ErrMakeChan)
    ensures r.Hang? ==> o.limit == 0 && KeysSpec(o, scan, range).Keys? && |KeysSpec(o, scan, range).keys| >= 2
    ensures r.Listed? && r.err.None? ==> KeysSpec(o, scan, range).Keys? && r.n == |KeysSpec(o, scan, range).keys|
    ensures r.Listed? && o.limit >= 1 ==> r.n <= o.limit
    ensures r.Listed? ==> r.n <= |l|
  {
    if |l| < o.limit then BoltDb.Listed(0, Some(BoltDb.ErrInsufficient(BoltDb.ListOpt(o.page, o.limit), |l|)))
    else if o.limit < 0 then BoltDb.Panic(ErrMakeChan)
    else if |l| == 0 then BoltDb.Panic(BoltDb.ErrIndexOutOfRange)
    else match KeysSpec(o, scan, range)
      case KeysPanic => BoltDb.Panic(ErrSliceBounds)
      case Keys(ks, err) =>
        var c := Consume(l, ks, kv, 0);
        if c.Listed? && c.err.None? then BoltDb.Listed(c.n, err)
        else if c.Listed? && Blocks(o.limit, c.n, ks) then BoltDb.Hang
        else c
  }

  /** With Limit 0, a reader that stops at the first of two keys leaves List blocked. */
  lemma UnbufferedListHangs(kv: map<string, Bytes>, l: seq<BoltDb.Slot>, scan: seq<Result<ScanReply>>)
    requires |l| >= 1 && scan == [Ok(ScanReply(0, ["a_1", "a_2"]))] && "a_1" !in kv
    ensures ListSpec(kv, l, ListOpt(0, 0, SortNatural, 0), scan, Ok([])) == BoltDb.Hang
  {
    var o := ListOpt(0, 0, SortNatural, 0);
    assert ScanTrace(scan) == (["a_1", "a_2"], None);
    assert KeysSpec(o, scan, Ok([])) == Keys(["a_1", "a_2"], None);
  }

  /**
   * List: the collector (over the first item's namespace `ns`, scanning
   * with `pattern`), then the reader over the collected keys.
   */
  method ListWith(srv: Server, l: seq<BoltDb.Slot>, ns: string, pattern: string, o: ListOpt, scan: seq<Result<ScanReply>>, range: Result<seq<string>>)
    returns (r: BoltDb.Listed, given: seq<Bytes>, query: Query)
    ensures r == ListSpec(srv.db.kv, l, o, scan, range)
    ensures 0 <= o.limit <= |l| && |l| > 0 && o.sort == SortNatural ==> query == ScanMatch(pattern)
  {
    query := NoQuery;
    given := [];
    if |l| < o.limit {
      return BoltDb.Listed(0, Some(BoltDb.ErrInsufficient(BoltDb.ListOpt(o.page, o.limit), |l|))), given, query;
    }
    if o.limit < 0 {
      return BoltDb.Panic(ErrMakeChan), given, query;
    }
    if |l| == 0 {
      return BoltDb.Panic(BoltDb.ErrIndexOutOfRange), given, query;
    }
    var keys;
    keys, query := GetKeys(o, ns, pattern, scan, range);
    if keys.KeysPanic? {
      return BoltDb.Panic(ErrSliceBounds), given, query;
    }
    var idx := 0;
    var kv := srv.db.kv;
    while idx < |keys.keys|
      invariant 0 <= idx <= |keys.keys| && |given| == idx
      invariant Consume(l, keys.keys, kv, 0) == Consume(l, keys.keys, kv, idx)
    {
      var key := keys.keys[idx];
      if idx >= |l| {
        return BoltDb.Panic(BoltDb.ErrIndexOutOfRange), given, query;
      }
      var err: Option<string> := None;
      if key !in kv {
        err := Some(ErrNil);
      } else if !l[idx].exportable {
        err := Some(BoltDb.ErrUnsupported);
      } else if l[idx].unmarshalErr.Some? {
        err := l[idx].unmarshalErr;
      }
      if err.Some? {
        r := if Blocks(o.limit, idx, keys.keys) then BoltDb.Hang else BoltDb.Listed(idx, err);
        return r, given, query;
      }
      given := given + [kv[key]];
      idx := idx + 1;
    }
    return BoltDb.Listed(idx, keys.err), given, query;
  }

  /** The SCAN pattern as written: the namespace only, without the database prefix storeKey adds. */
  function ScanPatternAsWritten(ns: string): (r: string)
    ensures r == ns + "_*"
  {
    ns + "_*"
  }

  /** The SCAN pattern covering storeKey's keys: the key prefix of the namespace, then "*". */
  function ScanPattern(dbName: string, ns: string): (r: string)
    ensures |dbName| == 0 ==> r == ScanPatternAsWritten(ns)
  {
    (if |dbName| > 0 then dbName + "_" + ns + "_" else ns + "_") + "*"
  }

  /** A "prefix*" MATCH pattern accepts exactly the keys starting with the prefix. */
  predicate Matches(key: string, pattern: string)
  {
    |pattern| > 0 && pattern[|pattern| - 1] == '*' && pattern[..|pattern| - 1] <= key
  }

  /** The corrected pattern matches every key the store writes for the namespace. */
  lemma PatternMatchesStoredKeys(dbName: string, i: Item)
    ensures Matches(StoreKey(dbName, i), ScanPattern(dbName, i.namespace))
  {
    var p := ScanPattern(dbName, i.namespace);
    assert p[..|p| - 1] == (if |dbName| > 0 then dbName + "_" + i.namespace + "_" else i.namespace + "_");
  }

  /** As written, with a database name set, the natural-order SCAN matches none of the namespace's keys. */
  lemma AsWrittenPatternMissesKeys()
    ensures !Matches(StoreKey("db", Item("a", "1", false, false, true, Ok([]))), ScanPatternAsWritten("a"))
  {
    var key := StoreKey("db", Item("a", "1", false, false, true, Ok([])));
    assert key[0] == 'd';
  }

  /**
   * With a positive Limit, items that accept everything and every key
   * present, List never panics and fills at most Limit items: exactly
   * the page of the collected keys.
   */
  lemma {:induction false} ListFillsPage(kv: map<string, Bytes>, l: seq<BoltDb.Slot>, o: ListOpt, scan: seq<Result<ScanReply>>, range: Result<seq<string>>)
    requires 1 <= o.limit <= |l| && o.page >= 0 && BoltDb.AllAccept(l)
    requires KeysSpec(o, scan, range).Keys? && forall k :: k in KeysSpec(o, scan, range).keys ==> k in kv
    ensures ListSpec(kv, l, o, scan, range).Listed?
    ensures ListSpec(kv, l, o, scan, range).n == |KeysSpec(o, scan, range).keys| <= o.limit
  {
    var ks := KeysSpec(o, scan, range).keys;
    assert o.page * o.limit >= 0;
    ConsumeAll(l, ks, kv, 0);
  }

  lemma {:induction false} ConsumeAll(l: seq<BoltDb.Slot>, keys: seq<string>, kv: map<string, Bytes>, idx: nat)
    requires idx <= |keys| <= |l| && BoltDb.AllAccept(l) && forall k :: k in keys ==> k in kv
    ensures Consume(l, keys, kv, idx) == BoltDb.Listed(|keys|, None)
    decreases |keys| - idx
  {
    if idx < |keys| {
      assert keys[idx] in keys;
      ConsumeAll(l, keys, kv, idx + 1);
    }
  }
}
