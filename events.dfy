/**
 * The pubsub events service (modules/events/events.go).
 *
 * Handlers are registered per topic, in order. Broadcast publishes an
 * envelope of the event's topic and marshalled body; the listener takes
 * envelopes off the subscription and runs every handler of the topic on a
 * fresh object decoded from the body. The decoders and pubsub are outside
 * the model: a handler is known by the identities of its factory and its
 * callback, and which factory objects accept which bodies is a parameter.
 */
module Events {
  import opened Wrappers
  import Protocols

  type Bytes = seq<Protocols.byte>

  /** A registered (factory, handle) pair. */
  datatype Handler = Handler(factory: nat, handle: nat)

  /** The envelope put on the "events" topic. */
  datatype Envelope = Envelope(topic: string, msg: Bytes)

  /** What one Next on the subscription yields: an error, or a message whose envelope does or does not decode. */
  datatype Incoming = NextErr(err: string) | Data(env: Option<Envelope>)

  /** One call of a handle function, on the object decoded from `body`. */
  datatype Call = Call(handle: nat, body: Bytes)

  /** The handlers registered for a topic (none when absent). */
  function HandlersFor(m: map<string, seq<Handler>>, topic: string): (r: seq<Handler>)
    ensures topic !in m ==> r == []
    ensures topic in m ==> r == m[topic]
  {
    if topic in m then m[topic] else []
  }

  /**
   * Broadcast: a body that fails to marshal is returned before anything is
   * published; otherwise the envelope is published and the publish error
   * (if any) returned.
   */
  function Broadcast(topic: string, body: Result<Bytes>, publishErr: Option<string>): (r: (Option<string>, Option<Envelope>))
    ensures body.Err? ==> r == (Some(body.error), None)
    ensures body.Ok? ==> r.1 == Some(Envelope(topic, body.value)) && r.0 == publishErr
  {
    if body.Err? then (Some(body.error), None) else (publishErr, Some(Envelope(topic, body.value)))
  }

  /** The calls the handlers `hs` make for `body`, in registration order, skipping a handler whose factory object rejects it. */
  function Calls(hs: seq<Handler>, body: Bytes, accepts: set<(nat, Bytes)>): (r: seq<Call>)
    ensures |r| <= |hs|
    ensures forall c :: c in r ==> c.body == body
    decreases |hs|
  {
    if hs == [] then []
    else
      var last := hs[|hs| - 1];
      Calls(hs[..|hs| - 1], body, accepts) + (if (last.factory, body) in accepts then [Call(last.handle, body)] else [])
  }

  /** What one incoming message causes. */
  function Dispatch(m: map<string, seq<Handler>>, inc: Incoming, accepts: set<(nat, Bytes)>): (r: seq<Call>)
    ensures inc.NextErr? || inc.env.None? ==> r == []
    ensures inc.Data? && inc.env.Some? ==> r == Calls(HandlersFor(m, inc.env.value.topic), inc.env.value.msg, accepts)
  {
    match inc
    case NextErr(_) => []
    case Data(None) => []
    case Data(Some(env)) => if env.topic in m then Calls(m[env.topic], env.msg, accepts) else []
  }

  /** What a run of incoming messages causes, message after message. */
  function DispatchAll(m: map<string, seq<Handler>>, msgs: seq<Incoming>, accepts: set<(nat, Bytes)>): (r: seq<Call>)
    ensures |msgs| == 1 ==> r == Dispatch(m, msgs[0], accepts)
    decreases |msgs|
  {
    if msgs == [] then [] else DispatchAll(m, msgs[..|msgs| - 1], accepts) + Dispatch(m, msgs[|msgs| - 1], accepts)
  }

  /** Messages that carry no envelope cause no call. */
  lemma {:induction false} DispatchAllQuiet(m: map<string, seq<Handler>>, msgs: seq<Incoming>, accepts: set<(nat, Bytes)>)
    requires forall i :: 0 <= i < |msgs| ==> msgs[i].NextErr? || msgs[i].env.None?
    ensures DispatchAll(m, msgs, accepts) == []
    decreases |msgs|
  {
    if msgs != [] {
      DispatchAllQuiet(m, msgs[..|msgs| - 1], accepts);
    }
  }

  /** One more message adds its own calls after the earlier ones'. */
  lemma DispatchAllSnoc(m: map<string, seq<Handler>>, msgs: seq<Incoming>, x: Incoming, accepts: set<(nat, Bytes)>)
    ensures DispatchAll(m, msgs + [x], accepts) == DispatchAll(m, msgs, accepts) + Dispatch(m, x, accepts)
  {
    assert (msgs + [x])[..|msgs|] == msgs;
  }

  /** Registering one more handler adds its call, if any, after every earlier handler's. */
  lemma CallsAfterRegister(hs: seq<Handler>, h: Handler, body: Bytes, accepts: set<(nat, Bytes)>)
    ensures Calls(hs + [h], body, accepts)
         == Calls(hs, body, accepts) + (if (h.factory, body) in accepts then [Call(h.handle, body)] else [])
  {
    assert (hs + [h])[..|hs + [h]| - 1] == hs;
  }

  /** Every handler whose factory accepts the body is called, and only those. */
  lemma {:induction false} CallsExactly(hs: seq<Handler>, body: Bytes, accepts: set<(nat, Bytes)>, k: nat)
    ensures Call(k, body) in Calls(hs, body, accepts) <==> exists h :: h in hs && h.handle == k && (h.factory, body) in accepts
    decreases |hs|
  {
    if hs != [] {
      var init := hs[..|hs| - 1];
      CallsExactly(init, body, accepts, k);
      assert hs == init + [hs[|hs| - 1]];
      assert forall h :: h in hs <==> h in init || h == hs[|hs| - 1];
    }
  }

  /** A broadcast envelope reaches exactly its topic's handlers, in registration order. */
  lemma BroadcastReachesTopic(m: map<string, seq<Handler>>, topic: string, body: Bytes, publishErr: Option<string>, accepts: set<(nat, Bytes)>)
    ensures DispatchAll(m, [Data(Broadcast(topic, Ok(body), publishErr).1)], accepts)
         == Calls(HandlersFor(m, topic), body, accepts)
  {
    var msgs := [Data(Broadcast(topic, Ok(body), publishErr).1)];
    assert msgs[..0] == [];
  }

  class EventsImpl {
    var handlrMap: map<string, seq<Handler>>

    constructor ()
      ensures handlrMap == map[]
    {
      handlrMap := map[];
    }

    /** RegisterHandler appends to the topic's list and stores the result. */
    method RegisterHandler(topic: string, h: Handler)
      modifies this
      ensures handlrMap == old(handlrMap)[topic := HandlersFor(old(handlrMap), topic) + [h]]
    {
      var hdlrs := if topic in handlrMap then handlrMap[topic] else [];
      hdlrs := hdlrs + [h];
      handlrMap := handlrMap[topic := hdlrs];
    }

    /**
     * eventsListener.Execute over the messages taken before the context is
     * done: a Next error, an envelope that does not decode, or a topic
     * without handlers is skipped; otherwise each handler runs in order.
     */
    method Execute(msgs: seq<Incoming>, accepts: set<(nat, Bytes)>) returns (calls: seq<Call>)
      ensures calls == DispatchAll(handlrMap, msgs, accepts)
    {
      calls := [];
      var i := 0;
      while i < |msgs|
        invariant 0 <= i <= |msgs|
        invariant calls == DispatchAll(handlrMap, msgs[..i], accepts)
      {
        var msg := msgs[i];
        assert msgs[..i + 1][..i] == msgs[..i];
        if msg.NextErr? || msg.env.None? || msg.env.value.topic !in handlrMap {
          i := i + 1;
          continue;
        }
        var env := msg.env.value;
        var hdlrs := handlrMap[env.topic];
        var j := 0;
        var round := [];
        while j < |hdlrs|
          invariant 0 <= j <= |hdlrs|
          invariant round == Calls(hdlrs[..j], env.msg, accepts)
        {
          assert hdlrs[..j + 1][..j] == hdlrs[..j];
          if (hdlrs[j].factory, env.msg) in accepts {
            round := round + [Call(hdlrs[j].handle, env.msg)];
          }
          j := j + 1;
        }
        assert hdlrs[..j] == hdlrs;
        calls := calls + round;
        i := i + 1;
      }
      assert msgs[..i] == msgs;
    }
  }
}
