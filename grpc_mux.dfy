/**
 * The gRPC listener multiplexer (modules/grpc/mux): several tagged network
 * listeners feed one bounded queue of connections that a single Accept
 * drains. Workers, the Accept call and Close are separate atomic steps that
 * may interleave in any order; every choice a Go `select` makes at random
 * is a parameter of the step that makes it.
 */
module GrpcMux {
  import opened Wrappers

  type Conn = nat

  /** Capacity of the shared connection queue. */
  const QueueCapacity := 50
  const NotRunning := "not running"
  const Running := "running"
  const StopFailed := "failed to stop listeners"
  /** The error Accept returns on a closed listener. */
  const ErrListenerClosed := "use of closed network connection"
  const DefaultAddr := "0.0.0.0:0"

  datatype MuxListener = MuxListener(tag: string, addr: string)

  /** What the TaskManager and the Start context did for one listener. */
  datatype StartOutcome =
    | Scheduled                  // the listener goroutine started and Start saw it start
    | ScheduleFailed(err: string) // GoFunc refused the listener goroutine
    | StartCancelled              // the goroutine was handed over, then Start's context ended first

  /** What the underlying listener's Accept returned. */
  datatype AcceptOutcome = Accepted(conn: Conn) | AcceptFailed(err: string)

  datatype WorkerState = Accepting | Holding(conn: Conn) | Exited
  /** A running Execute task over listener number `listener`. */
  datatype Worker = Worker(listener: nat, state: WorkerState)

  datatype AcceptResult = Delivered(conn: Conn) | EndOfStream | WouldBlock

  /** The name a listener runs under. */
  function TaskName(tag: string): (r: string)
    ensures |r| == 12 + |tag| && r[12..] == tag
  {
    "MuxListener_" + tag
  }

  function Tags(ls: seq<MuxListener>): (r: seq<string>)
    ensures |r| == |ls| && forall i :: 0 <= i < |ls| ==> r[i] == ls[i].tag
  {
    seq(|ls|, i requires 0 <= i < |ls| => ls[i].tag)
  }

  /** The status New records: every tag "not running". */
  function InitialStatus(tags: seq<string>): (r: map<string, string>)
    ensures r.Keys == set t | t in tags
    ensures forall t :: t in r ==> r[t] == NotRunning
  {
    map t | t in tags :: NotRunning
  }

  /** The status text Start records for a listener, when it records one. */
  function StartText(o: StartOutcome): string
  {
    match o
    case Scheduled => Running
    case ScheduleFailed(e) => "failed to start err: " + e
    case StartCancelled => ""
  }

  /** Index of the first listener whose Start wait was cancelled, or the number of outcomes. */
  function FirstCancel(outcomes: seq<StartOutcome>): (r: nat)
    ensures r <= |outcomes|
    ensures r < |outcomes| ==> outcomes[r] == StartCancelled
    ensures forall i :: 0 <= i < r ==> outcomes[i] != StartCancelled
  {
    if outcomes == [] then 0
    else if outcomes[0] == StartCancelled then 0
    else 1 + FirstCancel(outcomes[1..])
  }

  /** The status after Start walks the listeners with the given outcomes. */
  function StartStatus(status: map<string, string>, tags: seq<string>, outcomes: seq<StartOutcome>): map<string, string>
    requires |tags| == |outcomes|
    decreases |tags|
  {
    if tags == [] || outcomes[0] == StartCancelled then status
    else StartStatus(status[tags[0] := StartText(outcomes[0])], tags[1..], outcomes[1..])
  }

  /**
   * With distinct tags, Start leaves each listener before the first
   * cancellation with the text of its own outcome ("running" or "failed to
   * start err: ...") and every later listener as it was.
   */
  lemma {:induction false} StartStatusAt(status: map<string, string>, tags: seq<string>, outcomes: seq<StartOutcome>, i: nat)
    requires |tags| == |outcomes| && Distinct(tags) && i < |tags|
    decreases |tags|
    ensures var r := StartStatus(status, tags, outcomes);
      if i < FirstCancel(outcomes) then tags[i] in r && r[tags[i]] == StartText(outcomes[i])
      else (tags[i] in r <==> tags[i] in status) && (tags[i] in status ==> r[tags[i]] == status[tags[i]])
  {
    if outcomes[0] == StartCancelled {
    } else {
      var s1 := status[tags[0] := StartText(outcomes[0])];
      if i == 0 {
        StartStatusKeeps(s1, tags[1..], outcomes[1..], tags[0]);
      } else {
        assert Distinct(tags[1..]) by {
          forall a, b | 0 <= a < b < |tags[1..]| ensures tags[1..][a] != tags[1..][b] {
            assert tags[1..][a] == tags[a + 1] && tags[1..][b] == tags[b + 1];
          }
        }
        StartStatusAt(s1, tags[1..], outcomes[1..], i - 1);
        assert tags[1..][i - 1] == tags[i];
        assert tags[i] != tags[0];
      }
    }
  }

  /** Start never touches a tag that is not among the remaining listeners. */
  lemma {:induction false} StartStatusKeeps(status: map<string, string>, tags: seq<string>, outcomes: seq<StartOutcome>, t: string)
    requires |tags| == |outcomes| && t !in tags
    decreases |tags|
    ensures var r := StartStatus(status, tags, outcomes);
      (t in r <==> t in status) && (t in status ==> r[t] == status[t])
  {
    if tags != [] && outcomes[0] != StartCancelled {
      assert t != tags[0];
      assert forall k :: 0 <= k < |tags[1..]| ==> tags[1..][k] == tags[k + 1];
      StartStatusKeeps(status[tags[0] := StartText(outcomes[0])], tags[1..], outcomes[1..], t);
    }
  }

  /** When every listener starts, every (distinct) tag reads "running". */
  lemma AllRunning(status: map<string, string>, tags: seq<string>, outcomes: seq<StartOutcome>)
    requires |tags| == |outcomes| && Distinct(tags)
    requires forall i :: 0 <= i < |outcomes| ==> outcomes[i] == Scheduled
    ensures forall i :: 0 <= i < |tags| ==> tags[i] in StartStatus(status, tags, outcomes) && StartStatus(status, tags, outcomes)[tags[i]] == Running
  {
    forall i | 0 <= i < |tags|
      ensures tags[i] in StartStatus(status, tags, outcomes) && StartStatus(status, tags, outcomes)[tags[i]] == Running
    {
      StartStatusAt(status, tags, outcomes, i);
    }
  }

  /** The workers Start spawns: one per listener whose task was handed over. */
  function Spawned(outcomes: seq<StartOutcome>, first: nat): (r: seq<Worker>)
    ensures |r| <= |outcomes|
  {
    if outcomes == [] then []
    else match outcomes[0]
      case ScheduleFailed(_) => Spawned(outcomes[1..], first + 1)
      case StartCancelled => [Worker(first, Accepting)]
      case Scheduled => [Worker(first, Accepting)] + Spawned(outcomes[1..], first + 1)
  }

  /** Spawned workers run listeners first .. first + |outcomes| - 1 and start out accepting. */
  lemma {:induction false} SpawnedRange(outcomes: seq<StartOutcome>, first: nat)
    ensures forall k :: 0 <= k < |Spawned(outcomes, first)| ==>
      first <= Spawned(outcomes, first)[k].listener < first + |outcomes| && Spawned(outcomes, first)[k].state == Accepting
  {
    if outcomes != [] {
      SpawnedRange(outcomes[1..], first + 1);
    }
  }

  /** Number of refused schedules Start walks through before any cancellation. */
  function Refused(outcomes: seq<StartOutcome>): (r: nat)
    ensures r <= |outcomes|
  {
    if outcomes == [] || outcomes[0] == StartCancelled then 0
    else (if outcomes[0].ScheduleFailed? then 1 else 0) + Refused(outcomes[1..])
  }

  /** How StartStatus, Spawned and Refused unfold at listener i. */
  lemma StartStep(status: map<string, string>, tags: seq<string>, outcomes: seq<StartOutcome>, i: nat)
    requires |tags| == |outcomes| && i < |outcomes|
    ensures outcomes[i] != StartCancelled ==>
      StartStatus(status, tags[i..], outcomes[i..]) == StartStatus(status[tags[i] := StartText(outcomes[i])], tags[i + 1..], outcomes[i + 1..])
    ensures outcomes[i] == StartCancelled ==> StartStatus(status, tags[i..], outcomes[i..]) == status
    ensures Spawned(outcomes[i..], i) == match outcomes[i]
      case ScheduleFailed(_) => Spawned(outcomes[i + 1..], i + 1)
      case StartCancelled => [Worker(i, Accepting)]
      case Scheduled => [Worker(i, Accepting)] + Spawned(outcomes[i + 1..], i + 1)
    ensures Refused(outcomes[i..]) == match outcomes[i]
      case ScheduleFailed(_) => 1 + Refused(outcomes[i + 1..])
      case StartCancelled => 0
      case Scheduled => Refused(outcomes[i + 1..])
  {
    assert outcomes[i..][0] == outcomes[i] && outcomes[i..][1..] == outcomes[i + 1..];
    assert tags[i..][0] == tags[i] && tags[i..][1..] == tags[i + 1..];
  }

  lemma LiveOne(w: Worker)
    ensures Live([w]) == if w.state.Exited? then 0 else 1
  {
    assert [w][..0] == [];
  }

  /** Number of workers still running. */
  function Live(ws: seq<Worker>): (r: nat)
    ensures r <= |ws|
  {
    if ws == [] then 0 else (if ws[|ws| - 1].state.Exited? then 0 else 1) + Live(ws[..|ws| - 1])
  }

  lemma {:induction false} LiveAppend(a: seq<Worker>, b: seq<Worker>)
    ensures Live(a + b) == Live(a) + Live(b)
  {
    if b != [] {
      assert (a + b)[..|a + b| - 1] == a + b[..|b| - 1];
      LiveAppend(a, b[..|b| - 1]);
    } else {
      assert a + b == a;
    }
  }

  lemma {:induction false} LiveSpawned(outcomes: seq<StartOutcome>, first: nat)
    ensures Live(Spawned(outcomes, first)) == |Spawned(outcomes, first)|
  {
    if outcomes != [] {
      LiveSpawned(outcomes[1..], first + 1);
      if outcomes[0].Scheduled? {
        LiveAppend([Worker(first, Accepting)], Spawned(outcomes[1..], first + 1));
        assert Live([Worker(first, Accepting)]) == 1 by {
          assert [Worker(first, Accepting)][..0] == [];
        }
      } else if outcomes[0].StartCancelled? {
        assert [Worker(first, Accepting)][..0] == [];
      }
    }
  }

  /** Replacing one worker's state changes the live count by the change of that worker alone. */
  lemma {:induction false} LiveUpdate(ws: seq<Worker>, k: nat, w: Worker)
    requires k < |ws|
    ensures Live(ws[k := w]) + (if ws[k].state.Exited? then 0 else 1) == Live(ws) + (if w.state.Exited? then 0 else 1)
  {
    var n := |ws| - 1;
    if k == n {
      assert ws[k := w][..n] == ws[..n];
    } else {
      assert ws[k := w][..n] == ws[..n][k := w];
      LiveUpdate(ws[..n], k, w);
    }
  }

  class Mux {
    const listeners: seq<MuxListener>
    var status: map<string, string>
    var queue: seq<Conn>
    var workers: seq<Worker>
    /** The mux's own context (cancelled by Close). */
    var muxCancelled: bool
    /** The TaskManager's context, which the workers watch. */
    var tasksCancelled: bool
    var listenersClosed: bool
    /** The WaitGroup counter. */
    var wg: int
    /** WaitGroup additions that no running task will ever mark done. */
    ghost var leaked: nat
    /** The errors of a Close that is waiting for its workers. */
    var closing: Option<seq<string>>

    ghost predicate Valid()
      reads this
    {
      |queue| <= QueueCapacity &&
      (forall k :: 0 <= k < |workers| ==> workers[k].listener < |listeners|) &&
      wg == Live(workers) + leaked
    }

    /** New: no worker yet, every tag "not running". */
    constructor (listeners: seq<MuxListener>)
      ensures Valid()
      ensures this.listeners == listeners && status == InitialStatus(Tags(listeners))
      ensures queue == [] && workers == [] && wg == 0 && leaked == 0
      ensures !muxCancelled && !tasksCancelled && !listenersClosed && closing == None
    {
      this.listeners := listeners;
      status := InitialStatus(Tags(listeners));
      queue := [];
      workers := [];
      muxCancelled, tasksCancelled, listenersClosed := false, false, false;
      wg := 0;
      leaked := 0;
      closing := None;
    }

    function Status(): (r: map<string, string>)
      reads this
      ensures r == status
    {
      status
    }

    /** Addr: the first listener's address, or 0.0.0.0:0 when there is none. */
    function Addr(): (r: string)
      ensures |listeners| > 0 ==> r == listeners[0].addr
      ensures |listeners| == 0 ==> r == DefaultAddr
    {
      if |listeners| > 0 then listeners[0].addr else DefaultAddr
    }

    /**
     * Start, with the WaitGroup counted only for tasks that were handed over.
     */
    method Start(outcomes: seq<StartOutcome>)
      requires Valid() && |outcomes| == |listeners|
      modifies this
      ensures Valid()
      ensures status == StartStatus(old(status), Tags(listeners), outcomes)
      ensures workers == old(workers) + Spawned(outcomes, 0)
      ensures leaked == old(leaked)
      ensures queue == old(queue) && closing == old(closing)
      ensures muxCancelled == old(muxCancelled) && tasksCancelled == old(tasksCancelled) && listenersClosed == old(listenersClosed)
    {
      StartLoop(outcomes, false);
    }

    /**
     * Start as the source writes it: wg.Add(1) comes before GoFunc, so a
     * refused task leaves the counter one higher for good.
     */
    method StartAsWritten(outcomes: seq<StartOutcome>)
      requires Valid() && |outcomes| == |listeners|
      modifies this
      ensures Valid()
      ensures status == StartStatus(old(status), Tags(listeners), outcomes)
      ensures workers == old(workers) + Spawned(outcomes, 0)
      ensures leaked == old(leaked) + Refused(outcomes)
      ensures queue == old(queue) && closing == old(closing)
      ensures muxCancelled == old(muxCancelled) && tasksCancelled == old(tasksCancelled) && listenersClosed == old(listenersClosed)
    {
      StartLoop(outcomes, true);
    }

    method StartLoop(outcomes: seq<StartOutcome>, addBeforeSchedule: bool)
      requires Valid() && |outcomes| == |listeners|
      modifies this
      ensures Valid()
      ensures status == StartStatus(old(status), Tags(listeners), outcomes)
      ensures workers == old(workers) + Spawned(outcomes, 0)
      ensures leaked == old(leaked) + (if addBeforeSchedule then Refused(outcomes) else 0)
      ensures queue == old(queue) && closing == old(closing)
      ensures muxCancelled == old(muxCancelled) && tasksCancelled == old(tasksCancelled) && listenersClosed == old(listenersClosed)
    {
      var st, spawned, added, refused := WalkListeners(status, Tags(listeners), outcomes, addBeforeSchedule);
      SpawnedRange(outcomes, 0);
      LiveSpawned(outcomes, 0);
      LiveAppend(workers, spawned);
      status := st;
      workers := workers + spawned;
      wg := wg + added;
      leaked := leaked + refused;
    }

    /**
     * The loop of Start over the listeners, on values: the new status, the
     * workers spawned, the WaitGroup additions and how many of those have no task.
     */
    static method WalkListeners(status0: map<string, string>, tags: seq<string>, outcomes: seq<StartOutcome>, addBeforeSchedule: bool)
      returns (st: map<string, string>, spawned: seq<Worker>, added: nat, refused: nat)
      requires |tags| == |outcomes|
      ensures st == StartStatus(status0, tags, outcomes)
      ensures spawned == Spawned(outcomes, 0)
      ensures refused == (if addBeforeSchedule then Refused(outcomes) else 0)
      ensures added == |spawned| + refused
    {
      st, spawned, added, refused := status0, [], 0, 0;
      var i := 0;
      while i < |tags|
        invariant 0 <= i <= |tags|
        invariant StartStatus(st, tags[i..], outcomes[i..]) == StartStatus(status0, tags, outcomes)
        invariant Spawned(outcomes, 0) == spawned + Spawned(outcomes[i..], i)
        invariant (if addBeforeSchedule then Refused(outcomes) else 0) == refused + (if addBeforeSchedule then Refused(outcomes[i..]) else 0)
        invariant added == |spawned| + refused
      {
        StartStep(st, tags, outcomes, i);
        match outcomes[i]
        case ScheduleFailed(e) =>
          if addBeforeSchedule {
            added, refused := added + 1, refused + 1;
          }
          st := st[tags[i] := "failed to start err: " + e];
          i := i + 1;
        case Scheduled =>
          Assoc(spawned, [Worker(i, Accepting)], Spawned(outcomes[i + 1..], i + 1));
          added := added + 1;
          spawned := spawned + [Worker(i, Accepting)];
          st := st[tags[i] := Running];
          i := i + 1;
        case StartCancelled =>
          added := added + 1;
          spawned := spawned + [Worker(i, Accepting)];
          return;
      }
      assert outcomes[i..] == [] && tags[i..] == [];
    }

    /**
     * A worker's Accept on its listener. On a failure (always, once Close has
     * closed the listeners) it records "failed with err: ..." under its tag and
     * exits; otherwise it holds the new connection.
     */
    method WorkerAccept(k: nat, outcome: AcceptOutcome) returns (stepped: bool)
      requires Valid() && k < |workers|
      modifies this`workers, this`status, this`wg
      ensures Valid()
      ensures stepped <==> old(workers[k].state) == Accepting
      ensures !stepped ==> workers == old(workers) && status == old(status) && wg == old(wg)
      ensures stepped ==> var tag := listeners[old(workers[k].listener)].tag;
        (if listenersClosed || outcome.AcceptFailed? then
           var e := if listenersClosed then ErrListenerClosed else outcome.err;
           workers == old(workers)[k := Worker(old(workers[k].listener), Exited)] &&
           status == old(status)[tag := "failed with err: " + e] && wg == old(wg) - 1
         else
           workers == old(workers)[k := Worker(old(workers[k].listener), Holding(outcome.conn))] &&
           status == old(status) && wg == old(wg))
    {
      var w := workers[k];
      if w.state != Accepting {
        return false;
      }
      if listenersClosed || outcome.AcceptFailed? {
        var e := if listenersClosed then ErrListenerClosed else outcome.err;
        LiveUpdate(workers, k, Worker(w.listener, Exited));
        workers := workers[k := Worker(w.listener, Exited)];
        wg := wg - 1;
        status := status[listeners[w.listener].tag := "failed with err: " + e];
      } else {
        LiveUpdate(workers, k, Worker(w.listener, Holding(outcome.conn)));
        workers := workers[k := Worker(w.listener, Holding(outcome.conn))];
      }
      return true;
    }

    /**
     * A worker holding a connection selects between its task context ending
     * (it exits without enqueuing) and a free slot in the queue; when both are
     * ready, `preferDone` is the random choice.
     */
    method WorkerDeliver(k: nat, preferDone: bool) returns (stepped: bool)
      requires Valid() && k < |workers|
      modifies this`workers, this`queue, this`wg
      ensures Valid()
      ensures var hold := old(workers[k].state).Holding?;
        var room := |old(queue)| < QueueCapacity;
        stepped <==> hold && (tasksCancelled || room)
      ensures !stepped ==> workers == old(workers) && queue == old(queue) && wg == old(wg)
      ensures stepped && tasksCancelled && (preferDone || |old(queue)| == QueueCapacity) ==>
        workers == old(workers)[k := Worker(old(workers[k].listener), Exited)] && queue == old(queue) && wg == old(wg) - 1
      ensures stepped && !(tasksCancelled && (preferDone || |old(queue)| == QueueCapacity)) ==>
        workers == old(workers)[k := Worker(old(workers[k].listener), Accepting)] &&
        queue == old(queue) + [old(workers[k].state).conn] && wg == old(wg)
    {
      var w := workers[k];
      if !w.state.Holding? || !(tasksCancelled || |queue| < QueueCapacity) {
        return false;
      }
      if tasksCancelled && (preferDone || |queue| == QueueCapacity) {
        LiveUpdate(workers, k, Worker(w.listener, Exited));
        workers := workers[k := Worker(w.listener, Exited)];
        wg := wg - 1;
      } else {
        LiveUpdate(workers, k, Worker(w.listener, Accepting));
        queue := queue + [w.state.conn];
        workers := workers[k := Worker(w.listener, Accepting)];
      }
      return true;
    }

    /** The TaskManager stops: the workers' context ends. */
    method CancelTasks()
      modifies this`tasksCancelled
      ensures tasksCancelled
    {
      tasksCancelled := true;
    }

    /**
     * Accept: EOF once the mux is cancelled, otherwise the oldest queued
     * connection; when both are possible `preferDone` is the random choice.
     * With neither, the call would block.
     */
    method Accept(preferDone: bool) returns (r: AcceptResult)
      requires Valid()
      modifies this`queue
      ensures Valid()
      ensures muxCancelled && (old(queue) == [] || preferDone) ==> r == EndOfStream && queue == old(queue)
      ensures !(muxCancelled && (old(queue) == [] || preferDone)) && old(queue) != [] ==>
        r == Delivered(old(queue)[0]) && queue == old(queue)[1..]
      ensures !muxCancelled && old(queue) == [] ==> r == WouldBlock && queue == old(queue)
    {
      if muxCancelled && (queue == [] || preferDone) {
        return EndOfStream;
      }
      if queue == [] {
        return WouldBlock;
      }
      r := Delivered(queue[0]);
      queue := queue[1..];
    }

    /**
     * The first part of Close: cancel the mux context and close every
     * listener, collecting the errors the listeners return (`closeErrs[i]`
     * for listener i). Close then waits for the workers, see FinishClose.
     */
    method BeginClose(closeErrs: seq<Option<string>>)
      requires Valid() && |closeErrs| == |listeners|
      modifies this`muxCancelled, this`listenersClosed, this`closing
      ensures Valid()
      ensures muxCancelled && listenersClosed
      ensures closing == Some(Errors(closeErrs))
    {
      var errs: seq<string> := [];
      var i := 0;
      while i < |closeErrs|
        invariant 0 <= i <= |closeErrs|
        invariant errs == Errors(closeErrs[..i])
      {
        ErrorsSnoc(closeErrs[..i], closeErrs[i]);
        assert closeErrs[..i + 1] == closeErrs[..i] + [closeErrs[i]];
        if closeErrs[i].Some? {
          errs := errs + [closeErrs[i].value];
        }
        i := i + 1;
      }
      assert closeErrs[..i] == closeErrs;
      muxCancelled := true;
      listenersClosed := true;
      closing := Some(errs);
    }

    /**
     * The end of Close: the wait for the workers finished in time exactly
     * when the WaitGroup is back at zero; otherwise the 3-second timer fired
     * and "failed to stop listeners" is appended. An empty result is nil.
     */
    method FinishClose() returns (errs: seq<string>)
      requires Valid() && closing.Some?
      modifies this`closing
      ensures Valid() && closing == None
      ensures wg == 0 ==> errs == old(closing).value
      ensures wg != 0 ==> errs == old(closing).value + [StopFailed]
      ensures leaked > 0 ==> errs != [] && errs[|errs| - 1] == StopFailed
    {
      errs := closing.value;
      if wg != 0 {
        errs := errs + [StopFailed];
      }
      closing := None;
    }
  }

  /** The errors among the close results, in listener order. */
  function Errors(rs: seq<Option<string>>): (r: seq<string>)
    ensures |r| <= |rs|
    ensures (forall i :: 0 <= i < |rs| ==> rs[i].None?) ==> r == []
  {
    if rs == [] then [] else (if rs[0].Some? then [rs[0].value] else []) + Errors(rs[1..])
  }

  lemma {:induction false} ErrorsSnoc(rs: seq<Option<string>>, x: Option<string>)
    ensures Errors(rs + [x]) == Errors(rs) + (if x.Some? then [x.value] else [])
  {
    if rs == [] {
      assert [] + [x] == [x];
      assert [x][1..] == [];
    } else {
      assert (rs + [x])[0] == rs[0] && (rs + [x])[1..] == rs[1..] + [x];
      ErrorsSnoc(rs[1..], x);
      Assoc(if rs[0].Some? then [rs[0].value] else [], Errors(rs[1..]), if x.Some? then [x.value] else []);
    }
  }
}
