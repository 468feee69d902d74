/**
 * The gRPC events endpoint (modules/events/rpc-service/server.go).
 *
 * Raw handlers are registered per topic; Handle runs every handler of the
 * item's topic on its bytes, fails only when all of them failed (with the
 * first error), and otherwise answers "success". Handlers are known by
 * identity; what each one returns for the item is a parameter.
 *
 * As written, registering a second handler for a topic builds the longer
 * list and drops it, so only the first handler of a topic is ever stored.
 * RegisterHandlerAsWritten models that; RegisterHandler stores the list.
 */
module EventsRpc {
  import opened Wrappers

  type HandlerId = nat

  /** The handlers that fail on the item, with their errors; the others succeed. */
  type Failures = map<HandlerId, string>

  /** The errors of the failing handlers of `hs`, in handler order. */
  function Errors(hs: seq<HandlerId>, fails: Failures): (r: seq<string>)
    ensures |r| <= |hs|
    ensures |r| == |hs| <==> forall h :: h in hs ==> h in fails
    decreases |hs|
  {
    if hs == [] then []
    else
      var last := hs[|hs| - 1];
      assert forall h :: h in hs <==> h in hs[..|hs| - 1] || h == last;
      Errors(hs[..|hs| - 1], fails) + (if last in fails then [fails[last]] else [])
  }

  /** The head of the errors is the error of the first handler of `hs`, when that one fails. */
  lemma {:induction false} FirstError(hs: seq<HandlerId>, fails: Failures)
    requires |hs| > 0 && hs[0] in fails
    ensures |Errors(hs, fails)| > 0 && Errors(hs, fails)[0] == fails[hs[0]]
    decreases |hs|
  {
    if |hs| > 1 {
      var init := hs[..|hs| - 1];
      assert init[0] == hs[0];
      FirstError(init, fails);
    }
  }

  /** The answer Handle gives for the handlers `hs`: none registered, all failed, or success. */
  function Outcome(svc: string, topic: string, hs: Option<seq<HandlerId>>, fails: Failures): (r: Result<string>)
    requires hs.Some? ==> |hs.value| > 0
    ensures hs.None? ==> r == Err("Service " + svc + " doesnt implement handler for event:" + topic)
    ensures hs.Some? ==> (r.Err? <==> forall h :: h in hs.value ==> h in fails)
    ensures hs.Some? && r.Err? ==> r.error == fails[hs.value[0]]
    ensures r.Ok? ==> r.value == "success"
  {
    if hs.None? then Err("Service " + svc + " doesnt implement handler for event:" + topic)
    else
      var errs := Errors(hs.value, fails);
      if |errs| == |hs.value| then
        FirstError(hs.value, fails);
        Err(errs[0])
      else Ok("success")
  }

  class EventsServer {
    const svc: string
    var handlers: map<string, seq<HandlerId>>

    /** Every stored list holds at least one handler. */
    predicate Valid()
      reads this
    {
      forall t :: t in handlers ==> |handlers[t]| > 0
    }

    constructor (svc: string)
      ensures Valid() && this.svc == svc && handlers == map[]
    {
      this.svc := svc;
      handlers := map[];
    }

    /** The stored handlers of a topic, if any. */
    function Registered(topic: string): (r: Option<seq<HandlerId>>)
      reads this
      requires Valid()
      ensures r.Some? <==> topic in handlers
      ensures r.Some? ==> |r.value| > 0 && r.value == handlers[topic]
    {
      if topic in handlers then Some(handlers[topic]) else None
    }

    /** RegisterHandler as written: a known topic keeps its stored list. */
    method RegisterHandlerAsWritten(topic: string, h: HandlerId)
      requires Valid()
      modifies this
      ensures Valid()
      ensures handlers == if topic in old(handlers) then old(handlers) else old(handlers)[topic := [h]]
    {
      if topic in handlers {
        var hdlrs := handlers[topic];
        hdlrs := hdlrs + [h];
        return;
      }
      handlers := handlers[topic := [h]];
    }

    /** RegisterHandler storing the appended list: registration order is kept. */
    method RegisterHandler(topic: string, h: HandlerId)
      requires Valid()
      modifies this
      ensures Valid()
      ensures handlers == old(handlers)[topic := (if topic in old(handlers) then old(handlers)[topic] else []) + [h]]
    {
      if topic in handlers {
        var hdlrs := handlers[topic];
        hdlrs := hdlrs + [h];
        handlers := handlers[topic := hdlrs];
        return;
      }
      assert [] + [h] == [h];
      handlers := handlers[topic := [h]];
    }

    /** Handle: run every handler of the topic, collect the errors, decide. */
    method Handle(topic: string, fails: Failures) returns (r: Result<string>)
      requires Valid()
      ensures r == Outcome(svc, topic, Registered(topic), fails)
    {
      if topic in handlers {
        var hs := handlers[topic];
        var errs: seq<string> := [];
        var i := 0;
        while i < |hs|
          invariant 0 <= i <= |hs|
          invariant errs == Errors(hs[..i], fails)
        {
          assert hs[..i + 1][..i] == hs[..i];
          if hs[i] in fails {
            errs := errs + [fails[hs[i]]];
          }
          i := i + 1;
        }
        assert hs[..i] == hs;
        if |errs| == |hs| {
          return Err(errs[0]);
        }
        return Ok("success");
      }
      return Err("Service " + svc + " doesnt implement handler for event:" + topic);
    }
  }

  /** As written, a second handler for a topic is dropped: the topic still lists only the first. */
  method SecondHandlerDropped(t: string) returns (stored: seq<HandlerId>, r: Result<string>)
    ensures stored == [1] && r == Err("bad")
  {
    var e := new EventsServer("svc");
    e.RegisterHandlerAsWritten(t, 1);
    e.RegisterHandlerAsWritten(t, 2);
    stored := e.handlers[t];
    // so an item the first handler fails on fails, though the second would take it
    r := e.Handle(t, map[1 := "bad"]);
  }

  /** Corrected, both handlers are stored in order and the second one's success counts. */
  method SecondHandlerKept(t: string) returns (stored: seq<HandlerId>, r: Result<string>)
    ensures stored == [1, 2] && r == Ok("success")
  {
    var e := new EventsServer("svc");
    e.RegisterHandler(t, 1);
    e.RegisterHandler(t, 2);
    stored := e.handlers[t];
    r := e.Handle(t, map[1 := "bad"]);
  }
}
