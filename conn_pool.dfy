/**
 * The generic connection pool (utils/conn_pool.go).
 *
 * The pool is initialised lazily by the first GetConn with one dialled
 * connection. GetConn takes a queued connection when there is one;
 * otherwise, after the wait times out, it dials another while fewer than
 * MaxConnections are open. A connection whose last heartbeat is older than
 * 15 minutes is checked and, if the check fails, replaced by a fresh dial.
 * Handing a connection back queues it again, or closes it once MaxIdle
 * connections are idle.
 *
 * The dialler, the heartbeat check and the clock are parameters. The
 * connections handed out are tracked beside the state, so the accounting
 * "opened = queued + handed out" can be stated.
 *
 * As written, closing a handed-back connection does not lower `opened`,
 * so the pool believes more connections are open than there are and
 * refuses to dial once the phantom count reaches MaxConnections.
 * ConnDoneAsWritten models that; ConnDone lowers the count.
 */
module ConnPool {
  import opened Wrappers

  type Conn = nat

  /** One second and fifteen minutes as Go time.Duration values (nanoseconds). */
  const GetConnTimeout := 1_000_000_000
  const HeartbeatTimeout := 15 * 60 * 1_000_000_000

  const ErrOpenFailed := "Failed to open new connection"
  const ErrTimeout := "Timeout while getting new connection."

  /**
   * What the outside world does during one GetConn: the dial of the lazy
   * initialisation, the dial after the wait times out, the heartbeat
   * check's error and the replacement dial, and the current time.
   */
  datatype Env = Env(initDial: Result<Conn>, growDial: Result<Conn>, beatErr: Option<string>, redial: Result<Conn>, now: int)

  /** The pool's fields as a value. */
  datatype PoolState = PoolState(initDone: bool, queue: seq<Conn>, heartbeat: map<Conn, int>, openCount: int, idle: int)

  /** The lazy initialisation: a fresh queue and heartbeat map and one dial; on failure the pool stays uninitialised. */
  function InitStep(s: PoolState, dial: Result<Conn>, now: int): (r: (PoolState, Option<string>))
    ensures dial.Err? ==> r.1 == Some(dial.error) && r.0.initDone == s.initDone && r.0.queue == [] && r.0.heartbeat == map[]
    ensures dial.Ok? ==> r.1.None? && r.0.initDone && r.0.queue == [dial.value] && r.0.heartbeat == map[dial.value := now]
    ensures dial.Ok? ==> r.0.openCount == s.openCount + 1 && r.0.idle == s.idle + 1
    ensures dial.Err? ==> r.0.openCount == s.openCount && r.0.idle == s.idle
  {
    var t := s.(queue := [], heartbeat := map[]);
    if dial.Err? then (t, Some(dial.error))
    else (t.(queue := [dial.value], heartbeat := map[dial.value := now], openCount := s.openCount + 1, idle := s.idle + 1, initDone := true), None)
  }

  /**
   * The select: a queued connection is taken at once; with none, after the
   * timeout, another is dialled while fewer than `max` are open.
   */
  function TakeStep(s: PoolState, max: int, dial: Result<Conn>, now: int): (r: (PoolState, Result<Conn>))
    ensures |s.queue| > 0 ==> r == (s.(queue := s.queue[1..], idle := s.idle - 1), Ok(s.queue[0]))
    ensures |s.queue| == 0 && s.openCount < max && dial.Err? ==> r == (s, Err(ErrOpenFailed))
    ensures |s.queue| == 0 && s.openCount < max && dial.Ok? ==>
      r == (s.(openCount := s.openCount + 1, heartbeat := s.heartbeat[dial.value := now]), dial)
    ensures |s.queue| == 0 && s.openCount >= max ==> r == (s, Err(ErrTimeout))
  {
    if |s.queue| > 0 then (s.(queue := s.queue[1..], idle := s.idle - 1), Ok(s.queue[0]))
    else if s.openCount < max then
      if dial.Err? then (s, Err(ErrOpenFailed))
      else (s.(openCount := s.openCount + 1, heartbeat := s.heartbeat[dial.value := now]), dial)
    else (s, Err(ErrTimeout))
  }

  /** Whether a connection's last beat is older than the timeout (no recorded beat counts as old). */
  predicate Stale(s: PoolState, c: Conn, now: int)
  {
    c !in s.heartbeat || now - s.heartbeat[c] > HeartbeatTimeout
  }

  /**
   * The heartbeat check of a stale connection: on success its beat is
   * renewed; on failure it is forgotten and replaced by a fresh dial,
   * with the open count as it was.
   */
  function RefreshStep(s: PoolState, c: Conn, beatErr: Option<string>, redial: Result<Conn>, now: int): (r: (PoolState, Result<Conn>))
    ensures !Stale(s, c, now) ==> r == (s, Ok(c))
    ensures r.0.queue == s.queue && r.0.openCount == s.openCount && r.0.idle == s.idle && r.0.initDone == s.initDone
    ensures Stale(s, c, now) && beatErr.Some? ==> r.1 == redial && c !in r.0.heartbeat - (if redial.Ok? then {redial.value} else {})
  {
    if !Stale(s, c, now) then (s, Ok(c))
    else if beatErr.None? then (s.(heartbeat := s.heartbeat[c := now]), Ok(c))
    else
      var t := s.(heartbeat := s.heartbeat - {c});
      if redial.Err? then (t, Err(redial.error))
      else (t.(heartbeat := t.heartbeat[redial.value := now]), redial)
  }

  /** The lazy initialisation, when the pool is not yet initialised. */
  function Opened(s: PoolState, env: Env): (PoolState, Option<string>)
  {
    if s.initDone then (s, None) else InitStep(s, env.initDial, env.now)
  }

  /** Initialise if needed, then take or grow. */
  function Taken(s: PoolState, max: int, env: Env): (PoolState, Result<Conn>)
  {
    var o := Opened(s, env);
    if o.1.Some? then (o.0, Err(o.1.value)) else TakeStep(o.0, max, env.growDial, env.now)
  }

  /** GetConn as a value: initialise if needed, take or grow, then check the heartbeat. */
  function GetConnSpec(s: PoolState, max: int, env: Env): (r: (PoolState, Result<Conn>))
    ensures !s.initDone && env.initDial.Err? ==> r.1 == Err(env.initDial.error) && !r.0.initDone
    ensures r.1.Ok? ==> r.0.initDone
    ensures s.initDone && |s.queue| == 0 && s.openCount >= max ==> r == (s, Err(ErrTimeout))
    ensures r.1.Err? ==> r.1 == Err(ErrOpenFailed) || r.1 == Err(ErrTimeout) || r.1 == env.initDial || r.1 == env.redial
  {
    var t := Taken(s, max, env);
    if t.1.Err? then t else RefreshStep(t.0, t.1.value, env.beatErr, env.redial, env.now)
  }

  /**
   * connDone: at MaxIdle idle connections the connection is closed
   * (corrected: and no longer counted as open); otherwise it is queued.
   */
  function DoneSpec(s: PoolState, maxIdle: int, c: Conn, corrected: bool): (r: PoolState)
    ensures s.idle == maxIdle ==> r.queue == s.queue && r.idle == s.idle
    ensures s.idle == maxIdle ==> r.openCount == if corrected then s.openCount - 1 else s.openCount
    ensures s.idle != maxIdle ==> r == s.(queue := s.queue + [c], idle := s.idle + 1)
    ensures r.heartbeat == s.heartbeat && r.initDone == s.initDone
  {
    if s.idle == maxIdle then (if corrected then s.(openCount := s.openCount - 1) else s)
    else s.(queue := s.queue + [c], idle := s.idle + 1)
  }

  /** The queue and the idle counter agree, and no connection is queued twice or both queued and handed out. */
  predicate Sane(s: PoolState, inUse: set<Conn>)
  {
    s.idle == |s.queue| && Distinct(s.queue) && (forall c :: c in s.queue ==> c !in inUse)
  }

  /** Every connection counted as open is queued or handed out, within the limit. */
  predicate Accounted(s: PoolState, inUse: set<Conn>, max: int)
  {
    Sane(s, inUse) && s.openCount == |s.queue| + |inUse| && s.openCount <= max
  }

  /** Every connection the pool knows of. */
  function Known(s: PoolState, inUse: set<Conn>): set<Conn>
  {
    (set c | c in s.queue) + inUse + s.heartbeat.Keys
  }

  /** The connections handed out after a GetConn. */
  function InUseAfter(inUse: set<Conn>, s: PoolState, max: int, env: Env): set<Conn>
  {
    var r := GetConnSpec(s, max, env);
    if r.1.Ok? then inUse + {r.1.value} else inUse
  }

  /** Whether a GetConn took a connection whose replacement then could not be dialled. */
  predicate Lost(s: PoolState, max: int, env: Env)
  {
    var t := Taken(s, max, env);
    t.1.Ok? && LostOnRedial(t.0, t.1.value, env.beatErr, env.redial, env.now)
  }

  /** Taking from the queue or dialling keeps the accounting. */
  lemma TakeKeepsAccounts(s: PoolState, inUse: set<Conn>, max: int, dial: Result<Conn>, now: int)
    requires s.initDone && Accounted(s, inUse, max)
    requires dial.Ok? ==> dial.value !in Known(s, inUse)
    ensures var (s2, t) := TakeStep(s, max, dial, now);
      t.Ok? ==> t.value !in inUse && Accounted(s2, inUse + {t.value}, max)
  {
    if |s.queue| > 0 {
      TakeQueuedKeepsAccounts(s, inUse, max);
    } else if s.openCount < max && dial.Ok? {
      assert |inUse + {dial.value}| == |inUse| + 1;
    }
  }

  /** Handing out the head of the queue moves it from the queue to the connections in use. */
  lemma TakeQueuedKeepsAccounts(s: PoolState, inUse: set<Conn>, max: int)
    requires Accounted(s, inUse, max) && |s.queue| > 0
    ensures s.queue[0] !in inUse
    ensures Accounted(s.(queue := s.queue[1..], idle := s.idle - 1), inUse + {s.queue[0]}, max)
  {
    var c, q := s.queue[0], s.queue[1..];
    assert c in s.queue;
    assert forall i :: 0 <= i < |q| ==> q[i] == s.queue[i + 1];
    assert forall x :: x in q ==> x in s.queue && x != c;
    assert |inUse + {c}| == |inUse| + 1;
  }

  /** The first connection of the lazy initialisation is queued and counted. */
  lemma InitKeepsAccounts(s: PoolState, inUse: set<Conn>, max: int, dial: Result<Conn>, now: int)
    requires !s.initDone && s.openCount == 0 && inUse == {} && s.queue == [] && s.idle == 0 && max >= 1
    ensures var (s1, e) := InitStep(s, dial, now);
      e.None? ==> s1.initDone && Accounted(s1, inUse, max) && Known(s1, inUse) == {dial.value}
  {
    var (s1, e) := InitStep(s, dial, now);
    if e.None? {
      assert (set c | c in s1.queue) == {dial.value};
    }
  }

  /** Whether the heartbeat check drops the connection and then fails to dial its replacement. */
  predicate LostOnRedial(s: PoolState, c: Conn, beatErr: Option<string>, redial: Result<Conn>, now: int)
  {
    Stale(s, c, now) && beatErr.Some? && redial.Err?
  }

  /**
   * The heartbeat check keeps the accounting when it succeeds or replaces
   * the connection; when the replacement cannot be dialled the dropped
   * connection is still counted as open.
   */
  lemma RefreshKeepsAccounts(s: PoolState, inUse: set<Conn>, max: int, c: Conn, beatErr: Option<string>, redial: Result<Conn>, now: int)
    requires Accounted(s, inUse, max) && c in inUse
    requires redial.Ok? ==> redial.value !in Known(s, inUse)
    ensures var r := RefreshStep(s, c, beatErr, redial, now);
      var after := if r.1.Ok? then inUse - {c} + {r.1.value} else inUse - {c};
      (!LostOnRedial(s, c, beatErr, redial, now) ==> Accounted(r.0, after, max))
      && (LostOnRedial(s, c, beatErr, redial, now) ==> r.0.openCount == |r.0.queue| + |after| + 1)
  {
    var r := RefreshStep(s, c, beatErr, redial, now);
    if r.1.Ok? && r.1.value != c {
      assert r.1.value !in inUse;
      assert r.1.value !in s.queue;
    }
  }

  /** Dials whose connections the pool has not seen before. */
  predicate FreshDials(s: PoolState, inUse: set<Conn>, env: Env)
  {
    (env.growDial.Ok? ==> env.growDial.value !in Known(s, inUse) && (env.initDial.Ok? ==> env.growDial.value != env.initDial.value))
    && (env.redial.Ok? ==> env.redial.value !in Known(s, inUse) && (env.initDial.Ok? ==> env.redial.value != env.initDial.value))
    && (env.redial.Ok? && env.growDial.Ok? ==> env.redial.value != env.growDial.value)
  }

  /** The first half of GetConn keeps the accounting and leaves the redial unseen. */
  lemma TakenKeepsAccounts(s: PoolState, inUse: set<Conn>, max: int, env: Env)
    requires Accounted(s, inUse, max) && (!s.initDone ==> s.openCount == 0 && inUse == {} && s.queue == [])
    requires FreshDials(s, inUse, env) && max >= 1
    ensures var t := Taken(s, max, env);
      t.1.Ok? ==> (t.1.value !in inUse && Accounted(t.0, inUse + {t.1.value}, max)
        && (env.redial.Ok? ==> env.redial.value !in Known(t.0, inUse + {t.1.value})))
  {
    var o := Opened(s, env);
    if !s.initDone {
      InitKeepsAccounts(s, inUse, max, env.initDial, env.now);
    }
    if o.1.None? {
      OpenedKnown(s, inUse, env);
      TakeKeepsAccounts(o.0, inUse, max, env.growDial, env.now);
      TakeKnown(o.0, inUse, max, env.growDial, env.now);
    }
  }

  /** The lazy initialisation adds at most its own dial to the known connections. */
  lemma OpenedKnown(s: PoolState, inUse: set<Conn>, env: Env)
    requires !s.initDone ==> inUse == {} && s.queue == []
    ensures Opened(s, env).1.None? ==>
      Known(Opened(s, env).0, inUse) <= Known(s, inUse) + (if env.initDial.Ok? then {env.initDial.value} else {})
  {
  }

  /** Taking a connection adds at most the taken one to the known connections. */
  lemma TakeKnown(s: PoolState, inUse: set<Conn>, max: int, dial: Result<Conn>, now: int)
    ensures var (s2, t) := TakeStep(s, max, dial, now);
      t.Ok? ==> Known(s2, inUse + {t.value}) <= Known(s, inUse) + {t.value}
  {
    if |s.queue| > 0 {
      assert forall i :: 0 <= i < |s.queue[1..]| ==> s.queue[1..][i] == s.queue[i + 1];
    }
  }

  /**
   * A GetConn with fresh dials keeps the accounting (opened = queued +
   * handed out, within MaxConnections), except when a stale connection's
   * replacement cannot be dialled.
   */
  lemma GetConnKeepsAccounts(s: PoolState, inUse: set<Conn>, max: int, env: Env)
    requires Accounted(s, inUse, max) && (!s.initDone ==> s.openCount == 0 && inUse == {} && s.queue == [])
    requires FreshDials(s, inUse, env) && max >= 1
    ensures !Lost(s, max, env) ==> Accounted(GetConnSpec(s, max, env).0, InUseAfter(inUse, s, max, env), max)
  {
    TakenKeepsAccounts(s, inUse, max, env);
    var t := Taken(s, max, env);
    if t.1.Ok? {
      RefreshKeepsAccounts(t.0, inUse + {t.1.value}, max, t.1.value, env.beatErr, env.redial, env.now);
      assert inUse + {t.1.value} - {t.1.value} == inUse;
    }
  }

  /** Handing a connection back keeps the accounting, corrected. */
  lemma DoneKeepsAccounts(s: PoolState, inUse: set<Conn>, max: int, maxIdle: int, c: Conn)
    requires Accounted(s, inUse, max) && c in inUse
    ensures Accounted(DoneSpec(s, maxIdle, c, true), inUse - {c}, max)
  {
  }

  /** As written, the close at MaxIdle breaks it: opened stays one above what is queued and handed out. */
  lemma DoneAsWrittenLeaks(s: PoolState, inUse: set<Conn>, max: int, c: Conn)
    requires Accounted(s, inUse, max) && c in inUse && s.idle == 0
    ensures DoneSpec(s, 0, c, false).openCount == |DoneSpec(s, 0, c, false).queue| + |inUse - {c}| + 1
  {
  }

  /**
   * The consequence, with MaxConnections 2 and MaxIdle 1: take two
   * connections, hand both back (the second is closed), take the queued
   * one; the next GetConn times out: two connections are counted as open,
   * none is queued, and only one is handed out.
   */
  method LeakAsWritten() returns (r: Result<Conn>, open: int, queued: int)
    ensures r == Err(ErrTimeout) && open == 2 && queued == 0
  {
    var p := new Pool(2, 1);
    var a := p.GetConn(Env(Ok(1), Err("none"), None, Err("none"), 0));
    var b := p.GetConn(Env(Err("none"), Ok(2), None, Err("none"), 0));
    p.ConnDoneAsWritten(1);
    p.ConnDoneAsWritten(2);
    var c := p.GetConn(Env(Err("none"), Err("none"), None, Err("none"), 0));
    r := p.GetConn(Env(Err("none"), Ok(3), None, Err("none"), 0));
    open, queued := p.openCount, |p.queue|;
  }

  /** Corrected, the same steps end with a freshly dialled connection. */
  method NoLeak() returns (r: Result<Conn>, open: int, queued: int)
    ensures r == Ok(3) && open == 2 && queued == 0
  {
    var p := new Pool(2, 1);
    var a := p.GetConn(Env(Ok(1), Err("none"), None, Err("none"), 0));
    var b := p.GetConn(Env(Err("none"), Ok(2), None, Err("none"), 0));
    p.ConnDone(1);
    p.ConnDone(2);
    var c := p.GetConn(Env(Err("none"), Err("none"), None, Err("none"), 0));
    r := p.GetConn(Env(Err("none"), Ok(3), None, Err("none"), 0));
    open, queued := p.openCount, |p.queue|;
  }

  class Pool {
    const maxConnections: int
    const maxIdle: int
    var initDone: bool
    /** connChan: the idle connections, oldest first. */
    var queue: seq<Conn>
    /** heartbeatMap: when each connection was last known to be alive. */
    var heartbeat: map<Conn, int>
    /** The source's opened: how many connections the pool counts as open. */
    var openCount: int
    var idle: int

    function State(): PoolState
      reads this
    {
      PoolState(initDone, queue, heartbeat, openCount, idle)
    }

    constructor (maxConnections: int, maxIdle: int)
      ensures State() == PoolState(false, [], map[], 0, 0)
      ensures this.maxConnections == maxConnections && this.maxIdle == maxIdle
    {
      this.maxConnections := maxConnections;
      this.maxIdle := maxIdle;
      initDone := false;
      queue := [];
      heartbeat := map[];
      openCount, idle := 0, 0;
    }

    method GetConn(env: Env) returns (r: Result<Conn>)
      modifies this
      ensures (State(), r) == GetConnSpec(old(State()), maxConnections, env)
    {
      if !initDone {
        queue := [];
        heartbeat := map[];
        if env.initDial.Err? {
          return Err(env.initDial.error);
        }
        queue := [env.initDial.value];
        heartbeat := heartbeat[env.initDial.value := env.now];
        openCount := openCount + 1;
        idle := idle + 1;
        initDone := true;
      }
      var c: Conn;
      if |queue| > 0 {
        c := queue[0];
        queue := queue[1..];
        idle := idle - 1;
      } else if openCount < maxConnections {
        if env.growDial.Err? {
          return Err(ErrOpenFailed);
        }
        c := env.growDial.value;
        openCount := openCount + 1;
        heartbeat := heartbeat[c := env.now];
      } else {
        return Err(ErrTimeout);
      }
      if c !in heartbeat || env.now - heartbeat[c] > HeartbeatTimeout {
        if env.beatErr.Some? {
          heartbeat := heartbeat - {c};
          if env.redial.Err? {
            return Err(env.redial.error);
          }
          c := env.redial.value;
        }
        heartbeat := heartbeat[c := env.now];
      }
      return Ok(c);
    }

    /** connDone, corrected: a connection closed at MaxIdle is no longer counted as open. */
    method ConnDone(c: Conn)
      modifies this
      ensures State() == DoneSpec(old(State()), maxIdle, c, true)
    {
      if idle == maxIdle {
        openCount := openCount - 1;
        return;
      }
      idle := idle + 1;
      queue := queue + [c];
    }

    /** connDone as written: closing at MaxIdle leaves the open count as it was. */
    method ConnDoneAsWritten(c: Conn)
      modifies this
      ensures State() == DoneSpec(old(State()), maxIdle, c, false)
    {
      if idle == maxIdle {
        return;
      }
      idle := idle + 1;
      queue := queue + [c];
    }
  }
}
