/**
 * The older listener multiplexer (modules/grpc/transport/mux). Its workers
 * follow the same Execute loop as GrpcMux, but failures and the lifecycle
 * are reported to the optional status manager under "RPC Listeners", it
 * keeps no WaitGroup, and its Close returns the first listener error.
 */
module TransportMux {
  import opened Wrappers
  import GrpcMux
  import Status

  const ListenersKey := "RPC Listeners"
  const RunningText := "Running"
  const StoppedText := "Stopped"

  /** The map status reported for every listener tag with the same text. */
  function AllTags(tags: seq<string>, text: string): (r: map<string, string>)
    ensures r.Keys == set t | t in tags
    ensures forall t :: t in r ==> r[t] == text
  {
    map t | t in tags :: text
  }

  /** The map status a failing worker reports. */
  function FailureReport(tag: string, err: string): (r: map<string, string>)
    ensures r.Keys == {tag} && r[tag] == "Failed Err:" + err
  {
    map[tag := "Failed Err:" + err]
  }

  /**
   * The tag a worker's failure is reported under. Every `reportErr` closure
   * built by start reads the range variable when it runs, after the loop;
   * with one loop variable shared by all iterations (Go before 1.22) that
   * is the last listener's, whichever worker failed.
   */
  function ReportedTag(listeners: seq<GrpcMux.MuxListener>): (r: string)
    requires |listeners| > 0
    ensures r in GrpcMux.Tags(listeners)
    ensures r == GrpcMux.Tags(listeners)[|listeners| - 1]
  {
    listeners[|listeners| - 1].tag
  }

  /**
   * A failure of any listener but the last is reported under the last tag:
   * the failing listener keeps its earlier status and the last one reads
   * "Failed Err:" and the error.
   */
  lemma FailureUnderLastTag(prev: map<string, string>, listeners: seq<GrpcMux.MuxListener>, i: nat, err: string)
    requires i < |listeners| - 1 && listeners[i].tag != listeners[|listeners| - 1].tag
    requires listeners[i].tag in prev
    ensures var r := Status.DeltaOf(Status.MapStatus(FailureReport(ReportedTag(listeners), err)), Status.MapStatus(prev));
      r.m[listeners[i].tag] == prev[listeners[i].tag] && r.m[listeners[|listeners| - 1].tag] == "Failed Err:" + err
  {
    FailureKeepsOthers(prev, ReportedTag(listeners), err, listeners[i].tag);
  }

  /** One Execute task per listener, all accepting. */
  function StartWorkers(n: nat): (r: seq<GrpcMux.Worker>)
    ensures |r| == n && forall k :: 0 <= k < n ==> r[k] == GrpcMux.Worker(k, GrpcMux.Accepting)
  {
    seq(n, k requires 0 <= k < n => GrpcMux.Worker(k, GrpcMux.Accepting))
  }

  /** The first error among the close results, if any. */
  function FirstError(rs: seq<Option<string>>): (r: Option<string>)
    ensures r.None? <==> forall i :: 0 <= i < |rs| ==> rs[i].None?
    ensures r.Some? ==> exists i :: 0 <= i < |rs| && rs[i] == r && forall j :: 0 <= j < i ==> rs[j].None?
  {
    if rs == [] then None
    else if rs[0].Some? then rs[0]
    else
      var r := FirstError(rs[1..]);
      if r.Some? then
        var i :| 0 <= i < |rs[1..]| && rs[1..][i] == r && forall j :: 0 <= j < i ==> rs[1..][j].None?;
        assert rs[i + 1] == r && forall j :: 0 <= j < i + 1 ==> rs[j].None?;
        r
      else r
  }

  /**
   * A failure report keeps what the other listeners last reported: only the
   * failing tag changes, and it reads "Failed Err:" and the error.
   */
  lemma FailureKeepsOthers(prev: map<string, string>, tag: string, err: string, other: string)
    requires other in prev && other != tag
    ensures var r := Status.DeltaOf(Status.MapStatus(FailureReport(tag, err)), Status.MapStatus(prev));
      r.m[other] == prev[other] && r.m[tag] == "Failed Err:" + err
  {
  }

  /** After the stop report every listener tag reads "Stopped", whatever was stored before. */
  lemma StopReportsAllStopped(prev: Status.Status, tags: seq<string>, t: string)
    requires t in tags
    ensures var r := Status.DeltaOf(Status.MapStatus(AllTags(tags, StoppedText)), prev);
      r.MapStatus? && t in r.m && r.m[t] == StoppedText
  {
  }

  class Mux {
    const listeners: seq<GrpcMux.MuxListener>
    /** The optional status manager (null when none was provided). */
    const manager: Status.Manager?
    var queue: seq<GrpcMux.Conn>
    var workers: seq<GrpcMux.Worker>
    var muxCancelled: bool
    var tasksCancelled: bool
    var listenersClosed: bool

    ghost predicate Valid()
      reads this
    {
      |queue| <= GrpcMux.QueueCapacity &&
      forall k :: 0 <= k < |workers| ==> workers[k].listener < |listeners|
    }

    /**
     * NewMuxedListener: start one worker per listener, then report every
     * tag "Running" when a status manager is present.
     */
    constructor (listeners: seq<GrpcMux.MuxListener>, manager: Status.Manager?)
      modifies manager
      ensures Valid()
      ensures this.listeners == listeners && this.manager == manager
      ensures queue == [] && workers == StartWorkers(|listeners|)
      ensures !muxCancelled && !tasksCancelled && !listenersClosed
      ensures manager != null ==>
        manager.mp == Status.AfterReport(old(manager.mp), ListenersKey, Status.MapStatus(AllTags(GrpcMux.Tags(listeners), RunningText)))
    {
      this.listeners := listeners;
      this.manager := manager;
      queue := [];
      workers := StartWorkers(|listeners|);
      muxCancelled, tasksCancelled, listenersClosed := false, false, false;
      new;
      if manager != null {
        manager.Report(ListenersKey, Status.MapStatus(AllTags(GrpcMux.Tags(listeners), RunningText)));
      }
    }

    function Addr(): (r: string)
      ensures |listeners| > 0 ==> r == listeners[0].addr
      ensures |listeners| == 0 ==> r == GrpcMux.DefaultAddr
    {
      if |listeners| > 0 then listeners[0].addr else GrpcMux.DefaultAddr
    }

    /**
     * A worker's Accept on its listener; a failure (always, once the
     * listeners are closed) is reported to the manager, under the last
     * listener's tag (see ReportedTag), and ends the worker.
     */
    method WorkerAccept(k: nat, outcome: GrpcMux.AcceptOutcome) returns (stepped: bool)
      requires Valid() && k < |workers|
      modifies this`workers, manager
      ensures Valid()
      ensures stepped <==> old(workers[k].state) == GrpcMux.Accepting
      ensures !stepped ==> workers == old(workers) && (manager != null ==> manager.mp == old(manager.mp))
      ensures stepped ==> var w := old(workers[k]); var tag := ReportedTag(listeners);
        (if listenersClosed || outcome.AcceptFailed? then
           var e := if listenersClosed then GrpcMux.ErrListenerClosed else outcome.err;
           workers == old(workers)[k := GrpcMux.Worker(w.listener, GrpcMux.Exited)] &&
           (manager != null ==> manager.mp == Status.AfterReport(old(manager.mp), ListenersKey, Status.MapStatus(FailureReport(tag, e))))
         else
           workers == old(workers)[k := GrpcMux.Worker(w.listener, GrpcMux.Holding(outcome.conn))] &&
           (manager != null ==> manager.mp == old(manager.mp)))
    {
      var w := workers[k];
      if w.state != GrpcMux.Accepting {
        return false;
      }
      if listenersClosed || outcome.AcceptFailed? {
        var e := if listenersClosed then GrpcMux.ErrListenerClosed else outcome.err;
        workers := workers[k := GrpcMux.Worker(w.listener, GrpcMux.Exited)];
        if manager != null {
          manager.Report(ListenersKey, Status.MapStatus(FailureReport(ReportedTag(listeners), e)));
        }
      } else {
        workers := workers[k := GrpcMux.Worker(w.listener, GrpcMux.Holding(outcome.conn))];
      }
      return true;
    }

    /** A worker holding a connection: task context ended, or room in the queue (see GrpcMux). */
    method WorkerDeliver(k: nat, preferDone: bool) returns (stepped: bool)
      requires Valid() && k < |workers|
      modifies this`workers, this`queue
      ensures Valid()
      ensures stepped <==> old(workers[k].state).Holding? && (tasksCancelled || |old(queue)| < GrpcMux.QueueCapacity)
      ensures !stepped ==> workers == old(workers) && queue == old(queue)
      ensures stepped && tasksCancelled && (preferDone || |old(queue)| == GrpcMux.QueueCapacity) ==>
        workers == old(workers)[k := GrpcMux.Worker(old(workers[k].listener), GrpcMux.Exited)] && queue == old(queue)
      ensures stepped && !(tasksCancelled && (preferDone || |old(queue)| == GrpcMux.QueueCapacity)) ==>
        workers == old(workers)[k := GrpcMux.Worker(old(workers[k].listener), GrpcMux.Accepting)] &&
        queue == old(queue) + [old(workers[k].state).conn]
    {
      var w := workers[k];
      if !w.state.Holding? || !(tasksCancelled || |queue| < GrpcMux.QueueCapacity) {
        return false;
      }
      if tasksCancelled && (preferDone || |queue| == GrpcMux.QueueCapacity) {
        workers := workers[k := GrpcMux.Worker(w.listener, GrpcMux.Exited)];
      } else {
        queue := queue + [w.state.conn];
        workers := workers[k := GrpcMux.Worker(w.listener, GrpcMux.Accepting)];
      }
      return true;
    }

    method CancelTasks()
      modifies this`tasksCancelled
      ensures tasksCancelled
    {
      tasksCancelled := true;
    }

    /** Accept: as in GrpcMux. */
    method Accept(preferDone: bool) returns (r: GrpcMux.AcceptResult)
      requires Valid()
      modifies this`queue
      ensures Valid()
      ensures muxCancelled && (old(queue) == [] || preferDone) ==> r == GrpcMux.EndOfStream && queue == old(queue)
      ensures !(muxCancelled && (old(queue) == [] || preferDone)) && old(queue) != [] ==>
        r == GrpcMux.Delivered(old(queue)[0]) && queue == old(queue)[1..]
      ensures !muxCancelled && old(queue) == [] ==> r == GrpcMux.WouldBlock && queue == old(queue)
    {
      if muxCancelled && (queue == [] || preferDone) {
        return GrpcMux.EndOfStream;
      }
      if queue == [] {
        return GrpcMux.WouldBlock;
      }
      r := GrpcMux.Delivered(queue[0]);
      queue := queue[1..];
    }

    /** Close: close every listener, then cancel the mux; the first listener error is returned. */
    method Close(closeErrs: seq<Option<string>>) returns (err: Option<string>)
      requires Valid() && |closeErrs| == |listeners|
      modifies this`muxCancelled, this`listenersClosed
      ensures Valid() && muxCancelled && listenersClosed
      ensures err == FirstError(closeErrs)
    {
      var i := 0;
      err := None;
      while i < |closeErrs|
        invariant 0 <= i <= |closeErrs|
        invariant err == FirstError(closeErrs[..i])
      {
        FirstErrorSnoc(closeErrs[..i], closeErrs[i]);
        assert closeErrs[..i + 1] == closeErrs[..i] + [closeErrs[i]];
        if err.None? && closeErrs[i].Some? {
          err := closeErrs[i];
        }
        i := i + 1;
      }
      assert closeErrs[..i] == closeErrs;
      listenersClosed := true;
      muxCancelled := true;
    }

    /**
     * The OnStop hook: Close (its error is only logged), then report every
     * tag "Stopped". The hook itself always succeeds.
     */
    method OnStop(closeErrs: seq<Option<string>>) returns (hookErr: Option<string>)
      requires Valid() && |closeErrs| == |listeners|
      modifies this`muxCancelled, this`listenersClosed, manager
      ensures Valid() && muxCancelled && listenersClosed
      ensures hookErr.None?
      ensures manager != null ==>
        manager.mp == Status.AfterReport(old(manager.mp), ListenersKey, Status.MapStatus(AllTags(GrpcMux.Tags(listeners), StoppedText)))
    {
      var closeErr := Close(closeErrs);
      if manager != null {
        manager.Report(ListenersKey, Status.MapStatus(AllTags(GrpcMux.Tags(listeners), StoppedText)));
      }
      return None;
    }
  }

  lemma FirstErrorSnoc(rs: seq<Option<string>>, x: Option<string>)
    ensures FirstError(rs + [x]) == if FirstError(rs).Some? then FirstError(rs) else x
  {
    if rs == [] {
      assert [] + [x] == [x];
      assert [x][1..] == [];
    } else {
      assert (rs + [x])[0] == rs[0];
      assert (rs + [x])[1..] == rs[1..] + [x];
      if rs[0].None? {
        FirstErrorSnoc(rs[1..], x);
      }
    }
  }
}
