/**
 * The discovery-backed gRPC client service (modules/grpc/client).
 *
 * The service keeps the list of names clients were created for; an
 * advertiser re-reads that list every round and advertises each name with
 * a 15-minute TTL, waiting 7/8 of the TTL between rounds. A client's Get
 * finds one peer for a service, connects to it and dials it.
 *
 * Discovery, the host and the dialer are outside the model: their outcomes
 * are parameters, and the moments the context is seen cancelled are part
 * of each round's description.
 */
module GrpcClient {
  import opened Wrappers

  /** One minute as a Go time.Duration (nanoseconds). */
  const Minute := 60_000_000_000
  /** The advertising TTL. */
  const Ttl := 15 * Minute
  /** The delay between advertising rounds. */
  const Wait := 7 * Ttl / 8

  // ---------------------------------------------------------------------
  // The service list

  class ClientSvc {
    var svcs: seq<string>

    constructor ()
      ensures svcs == []
    {
      svcs := [];
    }

    /** NewClient registers the name at the end of the list. */
    method NewClient(name: string)
      modifies this
      ensures svcs == old(svcs) + [name]
      ensures svcs[..|old(svcs)|] == old(svcs) && svcs[|svcs| - 1] == name
    {
      svcs := svcs + [name];
    }

    /** getSvcs: a fresh copy of the list, so later changes to either side do not reach the other. */
    method GetSvcs() returns (cl: array<string>)
      ensures fresh(cl) && cl[..] == svcs
    {
      cl := new string[|svcs|](_ => "");
      var i := 0;
      while i < |svcs|
        invariant 0 <= i <= |svcs|
        invariant cl[..i] == svcs[..i]
        modifies cl
      {
        cl[i] := svcs[i];
        i := i + 1;
      }
    }
  }

  // ---------------------------------------------------------------------
  // The advertiser

  /**
   * What happens in one round: the names registered since the previous
   * round, the position in the list at which the context is first seen
   * done (at or past the end: not during the walk), the names whose
   * Advertise fails, and whether the context ends the wait.
   */
  datatype Round = Round(registered: seq<string>, doneAt: nat, failing: set<string>, doneInWait: bool)

  /** One Advertise call. */
  datatype Advert = Advert(svc: string, ttl: int, ok: bool)

  /** The Advertise calls of one round over the list `svcs`, in list order. */
  function RoundCalls(svcs: seq<string>, r: Round): (calls: seq<Advert>)
    ensures |calls| == if r.doneAt < |svcs| then r.doneAt else |svcs|
    ensures forall i :: 0 <= i < |calls| ==> calls[i] == Advert(svcs[i], Ttl, svcs[i] !in r.failing)
  {
    var n := if r.doneAt < |svcs| then r.doneAt else |svcs|;
    seq(n, i requires 0 <= i < n => Advert(svcs[i], Ttl, svcs[i] !in r.failing))
  }

  /** Whether the round ends the advertiser. */
  predicate RoundStops(svcs: seq<string>, r: Round)
  {
    r.doneAt < |svcs| || r.doneInWait
  }

  /** The calls made over `rounds` starting from the list `svcs`, and whether Execute returned. */
  function Run(svcs: seq<string>, rounds: seq<Round>): (seq<Advert>, bool)
    decreases |rounds|
  {
    if rounds == [] then ([], false)
    else
      var s := svcs + rounds[0].registered;
      if RoundStops(s, rounds[0]) then (RoundCalls(s, rounds[0]), true)
      else
        var rest := Run(s, rounds[1..]);
        (RoundCalls(s, rounds[0]) + rest.0, rest.1)
  }

  /** The names advertised by a list of calls. */
  function Names(calls: seq<Advert>): (r: seq<string>)
    ensures |r| == |calls| && forall i :: 0 <= i < |r| ==> r[i] == calls[i].svc
  {
    seq(|calls|, i requires 0 <= i < |calls| => calls[i].svc)
  }

  /**
   * A round the context does not interrupt advertises every name of the
   * list in order, whatever fails: an Advertise error skips only its own name.
   */
  lemma FullRoundAdvertisesAll(svcs: seq<string>, r: Round)
    requires r.doneAt >= |svcs|
    ensures Names(RoundCalls(svcs, r)) == svcs
    ensures forall i :: 0 <= i < |svcs| ==> RoundCalls(svcs, r)[i].ttl == Ttl
  {
  }

  /** A round interrupted at position k advertises exactly the first k names. */
  lemma InterruptedRoundIsPrefix(svcs: seq<string>, r: Round)
    requires r.doneAt < |svcs|
    ensures Names(RoundCalls(svcs, r)) == svcs[..r.doneAt]
    ensures RoundStops(svcs, r)
  {
  }

  /**
   * Names registered before a round are advertised in that round, after
   * the ones already listed: the list is re-read every round.
   */
  lemma RoundSeesRegistered(svcs: seq<string>, rounds: seq<Round>)
    requires |rounds| > 0 && rounds[0].doneAt >= |svcs + rounds[0].registered|
    ensures |Run(svcs, rounds).0| >= |svcs| + |rounds[0].registered|
    ensures Names(Run(svcs, rounds).0)[..|svcs| + |rounds[0].registered|] == svcs + rounds[0].registered
  {
    var s := svcs + rounds[0].registered;
    var first := RoundCalls(s, rounds[0]);
    FullRoundAdvertisesAll(s, rounds[0]);
    var all := Run(svcs, rounds).0;
    assert all[..|first|] == first;
    assert Names(all)[..|s|] == Names(first);
  }

  /**
   * discoveryProvider.Execute over the observed rounds: before each round
   * the names registered meanwhile are appended, then the list is re-read
   * and walked. `stopped` says Execute returned; otherwise the rounds ran out.
   */
  method Execute(c: ClientSvc, rounds: seq<Round>) returns (calls: seq<Advert>, stopped: bool)
    modifies c
    ensures (calls, stopped) == Run(old(c.svcs), rounds)
  {
    calls, stopped := [], false;
    var i := 0;
    assert rounds[i..] == rounds;
    ghost var total := Run(c.svcs, rounds);
    while i < |rounds| && !stopped
      invariant 0 <= i <= |rounds|
      invariant stopped ==> calls == total.0 && total.1
      invariant !stopped ==> total.0 == calls + Run(c.svcs, rounds[i..]).0 && total.1 == Run(c.svcs, rounds[i..]).1
      decreases |rounds| - i, if stopped then 0 else 1
    {
      var before := c.svcs;
      ghost var run := Run(before, rounds[i..]);
      var j := 0;
      while j < |rounds[i].registered|
        invariant 0 <= j <= |rounds[i].registered|
        invariant c.svcs == before + rounds[i].registered[..j]
        modifies c
      {
        c.NewClient(rounds[i].registered[j]);
        assert rounds[i].registered[..j + 1] == rounds[i].registered[..j] + [rounds[i].registered[j]];
        j := j + 1;
      }
      assert rounds[i].registered[..j] == rounds[i].registered;
      var svcs := c.GetSvcs();
      var round := AdvertiseRound(svcs[..], rounds[i]);
      assert rounds[i..][1..] == rounds[i + 1..];
      calls := calls + round;
      if RoundStops(svcs[..], rounds[i]) {
        assert run == (round, true);
        stopped := true;
      } else {
        assert run == (round + Run(c.svcs, rounds[i + 1..]).0, Run(c.svcs, rounds[i + 1..]).1);
      }
      i := i + 1;
    }
    if !stopped {
      assert rounds[i..] == [];
      assert calls + [] == calls;
    }
    assert total == (total.0, total.1);
  }

  /** The inner walk of one round: stop when the context is done, otherwise advertise and go on. */
  method AdvertiseRound(svcs: seq<string>, r: Round) returns (calls: seq<Advert>)
    ensures calls == RoundCalls(svcs, r)
  {
    calls := [];
    var k := 0;
    while k < |svcs|
      invariant 0 <= k <= |svcs| && k <= r.doneAt
      invariant calls == RoundCalls(svcs[..k], r)
    {
      if k == r.doneAt {
        assert svcs[..k] == svcs[..k][..k];
        break;
      }
      calls := calls + [Advert(svcs[k], Ttl, svcs[k] !in r.failing)];
      k := k + 1;
    }
    assert k < |svcs| ==> svcs[..k] == svcs[..k];
  }

  // ---------------------------------------------------------------------
  // Get

  /** What the FindPeers channel yields within 10 seconds. */
  datatype Found = NoPeerInTime | ChannelClosed | Peer(addr: string)

  /**
   * clientImpl.Get: the FindPeers error is returned as is; then a
   * timeout, a closed channel, a failed connect, or the dial's own result.
   */
  function Get<C>(svc: string, find: Result<Found>, connectErr: Option<string>, dial: Result<C>): (r: Result<C>)
    ensures find.Err? ==> r == Err(find.error)
    ensures find == Ok(NoPeerInTime) ==> r == Err("Unable to find peer for service " + svc)
    ensures find == Ok(ChannelClosed) ==> r == Err("Invalid address received for peer")
    ensures find.Ok? && find.value.Peer? && connectErr.Some? ==> r == Err("Failed to connect to peer " + find.value.addr)
    ensures r.Ok? <==> find.Ok? && find.value.Peer? && connectErr.None? && dial.Ok?
    ensures r.Ok? ==> r == dial
  {
    match find
    case Err(e) => Err(e)
    case Ok(NoPeerInTime) => Err("Unable to find peer for service " + svc)
    case Ok(ChannelClosed) => Err("Invalid address received for peer")
    case Ok(Peer(addr)) => if connectErr.Some? then Err("Failed to connect to peer " + addr) else dial
  }
}
