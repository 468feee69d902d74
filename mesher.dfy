/**
 * The mesher protocol (modules/node/internal/mesher/mesher.go): when a
 * peer connects, the node sends it the other peers it knows addresses
 * for; a node receiving such a list connects to those peers it is not
 * yet connected to and answers with the ones it is now connected to.
 *
 * The libp2p host is a class holding the network's peer list (the peers
 * it is connected to) and the peerstore's addresses. Which peers can be
 * dialled is a parameter, as is the outcome of sending.
 */
module Mesher {
  import opened Wrappers

  type PeerId = string
  type Addr = string

  const ProtocolId := "/msuite/mesher/1.0.0"
  const ErrIncorrectMsg := "incorrect msg received"

  /** peer.AddrInfo. */
  datatype AddrInfo = AddrInfo(id: PeerId, addrs: seq<Addr>)

  /** A request the protocol handler receives: a peer list, or something else. */
  datatype Msg = PeersList(peers: seq<AddrInfo>) | OtherMsg

  /** The peerstore's addresses for a peer, none when it is unknown. */
  function AddrsOf(store: map<PeerId, seq<Addr>>, p: PeerId): seq<Addr>
  {
    if p in store then store[p] else []
  }

  /** Whether getPeersFor passes a network peer on to `target`. */
  predicate Shared(p: PeerId, self: PeerId, target: PeerId, store: map<PeerId, seq<Addr>>)
  {
    p != target && p != self && |AddrsOf(store, p)| > 0
  }

  /** getPeersFor as a value: the network's peers, in order, other than the target and self and with known addresses. */
  function PeersFor(network: seq<PeerId>, self: PeerId, target: PeerId, store: map<PeerId, seq<Addr>>): (r: seq<AddrInfo>)
    ensures |r| <= |network|
    ensures forall i :: 0 <= i < |r| ==> r[i].id != target && r[i].id != self
    ensures network == [target] ==> r == []
  {
    if |network| == 0 then []
    else
      var rest := PeersFor(network[1..], self, target, store);
      if Shared(network[0], self, target, store) then [AddrInfo(network[0], AddrsOf(store, network[0]))] + rest else rest
  }

  /** Every peer offered is a network peer that is neither the target nor self and has addresses, and every such peer is offered. */
  lemma {:induction false} PeersForExactly(network: seq<PeerId>, self: PeerId, target: PeerId, store: map<PeerId, seq<Addr>>)
    ensures forall i :: 0 <= i < |PeersFor(network, self, target, store)| ==>
      var a := PeersFor(network, self, target, store)[i];
      a.id in network && Shared(a.id, self, target, store) && a.addrs == AddrsOf(store, a.id)
    ensures forall p :: p in network && Shared(p, self, target, store) ==>
      AddrInfo(p, AddrsOf(store, p)) in PeersFor(network, self, target, store)
  {
    if |network| > 0 {
      PeersForExactly(network[1..], self, target, store);
      assert forall p :: p in network ==> p == network[0] || p in network[1..];
    }
  }

  /** The peers a network peer list is connected to. */
  function Connected(network: seq<PeerId>): (r: set<PeerId>)
    ensures forall p :: p in r <==> p in network
  {
    set p | p in network
  }

  /**
   * checkAndAddPeers as a value, given the network's peers at the start
   * and the peers a dial reaches: the peers answered with, the network's
   * peers and the peerstore afterwards. A peer that is dialled joins the
   * network's peers (placed last; the order libp2p lists them in is not
   * modelled).
   */
  function CheckAndAdd(peers: seq<AddrInfo>, network: seq<PeerId>, reachable: set<PeerId>, store: map<PeerId, seq<Addr>>):
    (r: (seq<AddrInfo>, seq<PeerId>, map<PeerId, seq<Addr>>))
    ensures |r.0| <= |peers|
    ensures |network| <= |r.1| && r.1[..|network|] == network
    ensures forall i :: 0 <= i < |r.0| ==> r.0[i].id in r.1
  {
    if |peers| == 0 then ([], network, store)
    else
      var p := peers[0];
      if p.id in network then
        var rest := CheckAndAdd(peers[1..], network, reachable, store);
        ([p] + rest.0, rest.1, rest.2)
      else if p.id !in reachable then
        CheckAndAdd(peers[1..], network, reachable, store)
      else
        var rest := CheckAndAdd(peers[1..], network + [p.id], reachable, store[p.id := AddrsOf(store, p.id) + p.addrs]);
        assert rest.1[..|network|] == rest.1[..|network| + 1][..|network|];
        assert rest.1[|network|] == p.id;
        ([p] + rest.0, rest.1, rest.2)
  }

  /** The peers kept from a list: those already connected or reachable, in order. */
  function Kept(peers: seq<AddrInfo>, ok: set<PeerId>): (r: seq<AddrInfo>)
  {
    if |peers| == 0 then [] else (if peers[0].id in ok then [peers[0]] else []) + Kept(peers[1..], ok)
  }

  /**
   * The answer keeps exactly the peers that were connected or could be
   * dialled, in their order (an order-preserving subsequence), and every
   * peer answered with is connected afterwards (see CheckAndAddConnects).
   */
  lemma {:induction false} CheckAndAddKeeps(peers: seq<AddrInfo>, network: seq<PeerId>, reachable: set<PeerId>, store: map<PeerId, seq<Addr>>)
    ensures CheckAndAdd(peers, network, reachable, store).0 == Kept(peers, Connected(network) + reachable)
  {
    if |peers| > 0 {
      var p := peers[0];
      if p.id in network {
        CheckAndAddKeeps(peers[1..], network, reachable, store);
      } else if p.id !in reachable {
        CheckAndAddKeeps(peers[1..], network, reachable, store);
      } else {
        var store2 := store[p.id := AddrsOf(store, p.id) + p.addrs];
        CheckAndAddKeeps(peers[1..], network + [p.id], reachable, store2);
        KeptSame(peers[1..], Connected(network + [p.id]) + reachable, Connected(network) + reachable);
      }
    }
  }

  /** Afterwards the network's peers are those before and the offered peers that could be dialled. */
  lemma {:induction false} CheckAndAddConnects(peers: seq<AddrInfo>, network: seq<PeerId>, reachable: set<PeerId>, store: map<PeerId, seq<Addr>>)
    ensures Connected(CheckAndAdd(peers, network, reachable, store).1) == Connected(network) + (set p | p in Kept(peers, reachable) :: p.id)
  {
    if |peers| > 0 {
      var p := peers[0];
      var rest := Kept(peers[1..], reachable);
      assert (set q | q in Kept(peers, reachable) :: q.id) == (if p.id in reachable then {p.id} else {}) + (set q | q in rest :: q.id);
      if p.id in network || p.id !in reachable {
        CheckAndAddConnects(peers[1..], network, reachable, store);
      } else {
        var store2 := store[p.id := AddrsOf(store, p.id) + p.addrs];
        CheckAndAddConnects(peers[1..], network + [p.id], reachable, store2);
        assert Connected(network + [p.id]) == Connected(network) + {p.id};
      }
    }
  }

  /** Kept depends only on the set it filters by. */
  lemma {:induction false} KeptSame(peers: seq<AddrInfo>, a: set<PeerId>, b: set<PeerId>)
    requires forall p :: p in peers ==> (p.id in a <==> p.id in b)
    ensures Kept(peers, a) == Kept(peers, b)
  {
    if |peers| > 0 {
      assert peers[0] in peers;
      assert forall p :: p in peers[1..] ==> p in peers;
      KeptSame(peers[1..], a, b);
    }
  }

  /** Kept is an order-preserving subsequence: at most as long, and each kept peer comes from the list. */
  lemma {:induction false} KeptSubsequence(peers: seq<AddrInfo>, ok: set<PeerId>)
    ensures |Kept(peers, ok)| <= |peers|
    ensures forall a :: a in Kept(peers, ok) <==> a in peers && a.id in ok
  {
    if |peers| > 0 {
      KeptSubsequence(peers[1..], ok);
      assert forall a :: a in peers <==> a == peers[0] || a in peers[1..];
    }
  }

  /** A successful dial stores the peer's addresses, after those already known; peers not dialled keep theirs. */
  lemma {:induction false} CheckAndAddStore(peers: seq<AddrInfo>, network: seq<PeerId>, reachable: set<PeerId>, store: map<PeerId, seq<Addr>>, q: PeerId)
    requires forall p :: p in peers ==> p.id != q
    ensures q in CheckAndAdd(peers, network, reachable, store).2 <==> q in store
    ensures q in store ==> CheckAndAdd(peers, network, reachable, store).2[q] == store[q]
  {
    if |peers| > 0 {
      assert peers[0] in peers;
      assert forall p :: p in peers[1..] ==> p in peers;
      var p := peers[0];
      if p.id in network || p.id !in reachable {
        CheckAndAddStore(peers[1..], network, reachable, store, q);
      } else {
        CheckAndAddStore(peers[1..], network + [p.id], reachable, store[p.id := AddrsOf(store, p.id) + p.addrs], q);
      }
    }
  }

  /** The host side the mesher uses: the network's (connected) peers and the peerstore. */
  class Host {
    const self: PeerId
    var network: seq<PeerId>
    var store: map<PeerId, seq<Addr>>

    constructor (self: PeerId, network: seq<PeerId>, store: map<PeerId, seq<Addr>>)
      ensures this.self == self && this.network == network && this.store == store
    {
      this.self := self;
      this.network := network;
      this.store := store;
    }

    /** getPeersFor: the peers to offer `target`. */
    method GetPeersFor(target: PeerId) returns (req: seq<AddrInfo>)
      ensures req == PeersFor(network, self, target, store)
    {
      req := [];
      var i := 0;
      ghost var total := PeersFor(network, self, target, store);
      while i < |network|
        invariant 0 <= i <= |network|
        invariant total == req + PeersFor(network[i..], self, target, store)
      {
        assert network[i..][1..] == network[i + 1..];
        var p := network[i];
        if p != target && p != self {
          var addrs := if p in store then store[p] else [];
          if |addrs| > 0 {
            assert req + [AddrInfo(p, addrs)] + PeersFor(network[i + 1..], self, target, store)
              == req + ([AddrInfo(p, addrs)] + PeersFor(network[i + 1..], self, target, store));
            req := req + [AddrInfo(p, addrs)];
          }
        }
        i := i + 1;
      }
      assert network[i..] == [];
      assert req + [] == req;
    }

    /** checkAndAddPeers: dial the unconnected peers, keep those connected. */
    method CheckAndAddPeers(peers: seq<AddrInfo>, reachable: set<PeerId>) returns (successful: seq<AddrInfo>)
      modifies this
      ensures (successful, network, store) == CheckAndAdd(peers, old(network), reachable, old(store))
    {
      successful := [];
      var i := 0;
      ghost var total := CheckAndAdd(peers, network, reachable, store);
      assert peers[0..] == peers;
      assert successful + total.0 == total.0;
      assert total == (total.0, total.1, total.2);
      while i < |peers|
        invariant 0 <= i <= |peers|
        invariant var rest := CheckAndAdd(peers[i..], network, reachable, store);
          total == (successful + rest.0, rest.1, rest.2)
      {
        assert peers[i..][1..] == peers[i + 1..];
        var p := peers[i];
        if p.id !in network {
          if p.id !in reachable {
            i := i + 1;
            continue;
          }
          network := network + [p.id];
          store := store[p.id := (if p.id in store then store[p.id] else []) + p.addrs];
        }
        assert successful + [p] + CheckAndAdd(peers[i + 1..], network, reachable, store).0
          == successful + ([p] + CheckAndAdd(peers[i + 1..], network, reachable, store).0);
        successful := successful + [p];
        i := i + 1;
      }
      assert peers[i..] == [];
      assert successful + [] == successful;
    }

    /** HandleMsg: a peer list is answered with the peers now connected; anything else is refused. */
    method HandleMsg(req: Msg, reachable: set<PeerId>) returns (r: Result<seq<AddrInfo>>)
      modifies this
      ensures req.OtherMsg? ==> r == Err(ErrIncorrectMsg) && network == old(network) && store == old(store)
      ensures req.PeersList? ==> r.Ok? && (r.value, network, store) == CheckAndAdd(req.peers, old(network), reachable, old(store))
    {
      if !req.PeersList? {
        return Err(ErrIncorrectMsg);
      }
      var resp := CheckAndAddPeers(req.peers, reachable);
      return Ok(resp);
    }

    /**
     * BroadcastPeers: nothing is sent and no error is returned when there
     * is no peer to offer; otherwise the list is sent and the send's error
     * returned.
     */
    method BroadcastPeers(target: PeerId, sendErr: Option<string>) returns (sent: Option<seq<AddrInfo>>, err: Option<string>)
      ensures PeersFor(network, self, target, store) == [] ==> sent.None? && err.None?
      ensures PeersFor(network, self, target, store) != [] ==> sent == Some(PeersFor(network, self, target, store)) && err == sendErr
    {
      var req := GetPeersFor(target);
      if |req| == 0 {
        return None, None;
      }
      return Some(req), sendErr;
    }
  }
}
