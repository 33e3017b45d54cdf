/** Peer statuses and the highest known block they announce. */
module PeerTracking {
  import opened SyncTypes
  import opened SyncConfig

  /** A status message, and equally what is stored of it for a peer. */
  datatype Status = Status(number: int, hash: Hash, genesis: Hash)

  type Peers = map<NodeId, Status>

  const EMPTY := Status(0, NO_HASH, NO_HASH)

  /** Whether a stored status takes over an incoming one, for a status of the peer's own chain. */
  predicate Changes(stored: Status, incoming: Status) {
    && !(stored.hash == incoming.hash && stored.number == incoming.number)
    && (stored.genesis == NO_HASH || stored.genesis == incoming.genesis)
  }

  function Updated(stored: Status, incoming: Status): Status {
    if Changes(stored, incoming) then
      Status(incoming.number, incoming.hash,
             if stored.genesis == NO_HASH then incoming.genesis else stored.genesis)
    else stored
  }

  function UpdatePeers(c: Config, peers: Peers, id: NodeId, st: Status): Peers {
    if st.genesis != c.genesis then peers
    else if id in peers then peers[id := Updated(peers[id], st)]
    else peers[id := st]
  }

  /** A status counts when it is of the node's chain and new to the peer's record. */
  predicate Accepts(c: Config, peers: Peers, id: NodeId, st: Status) {
    st.genesis == c.genesis && (id in peers ==> Changes(peers[id], st))
  }

  function UpdateConfig(c: Config, peers: Peers, id: NodeId, st: Status): Config {
    if Accepts(c, peers, id, st) then RaiseKnown(c, st.number, st.hash) else c
  }

  function InsertEmpty(peers: Peers, id: NodeId): Peers {
    if id in peers then peers else peers[id := EMPTY]
  }

  /** The record of one peer is either of the node's own chain or still blank. */
  predicate GoodPeer(c: Config, st: Status) {
    st.number <= c.knownHighest && (st.genesis == c.genesis || (st.genesis == NO_HASH && st.number == 0))
  }

  ghost predicate GoodPeers(c: Config, peers: Peers) {
    forall id :: id in peers ==> GoodPeer(c, peers[id])
  }

  /** Every status message keeps the records good; and the known pair is the maximum: it never falls, it
      covers an accepted status, and where it moved it is that status, number and hash together. */
  lemma StatusKeepsGood(c: Config, peers: Peers, id: NodeId, st: Status)
    requires GoodPeers(c, peers)
    ensures var c' := UpdateConfig(c, peers, id, st);
      && GoodPeers(c', UpdatePeers(c, peers, id, st))
      && c'.knownHighest == (if Accepts(c, peers, id, st) then Max(c.knownHighest, st.number) else c.knownHighest)
      && (c'.knownHash == c.knownHash || (c'.knownHighest == st.number && c'.knownHash == st.hash))
      && c' == c.(knownHighest := c'.knownHighest, knownHash := c'.knownHash)
  {
    var c', peers' := UpdateConfig(c, peers, id, st), UpdatePeers(c, peers, id, st);
    forall p | p in peers'
      ensures GoodPeer(c', peers'[p])
    {
      if p in peers {
        assert GoodPeer(c, peers[p]);
      }
    }
  }

  /** The same status a second time changes nothing. */
  lemma StatusTwice(c: Config, peers: Peers, id: NodeId, st: Status)
    ensures var c', peers' := UpdateConfig(c, peers, id, st), UpdatePeers(c, peers, id, st);
      UpdateConfig(c', peers', id, st) == c' && UpdatePeers(c', peers', id, st) == peers'
  {
  }

  class PeerStatus {
    const id: NodeId
    var number: int
    var hash: Hash
    var genesis: Hash

    function View(): Status
      reads this
    {
      Status(number, hash, genesis)
    }

    constructor (id: NodeId, st: Status)
      ensures View() == st && this.id == id
    {
      this.id := id;
      number, hash, genesis := st.number, st.hash, st.genesis;
    }

    method Update(st: Status) returns (changed: bool)
      modifies this
      ensures changed == Changes(old(View()), st)
      ensures View() == Updated(old(View()), st)
    {
      if hash == st.hash && st.number == number {
        return false;
      }
      if genesis != NO_HASH && st.genesis != genesis {
        return false;
      }
      number := st.number;
      hash := st.hash;
      if genesis == NO_HASH {
        genesis := st.genesis;
      }
      return true;
    }
  }

  class SyncPeerStatus {
    var peers: map<NodeId, PeerStatus>
    const config: BlockSyncConfig

    ghost predicate Valid()
      reads this, peers.Values
    {
      && (forall i :: i in peers ==> peers[i].id == i)
      && (forall i, j :: i in peers && j in peers && peers[i] == peers[j] ==> i == j)
    }

    function View(): Peers
      reads this, peers.Values
    {
      map i | i in peers :: peers[i].View()
    }

    constructor (config: BlockSyncConfig)
      ensures Valid() && this.config == config && View() == map[]
    {
      this.config := config;
      peers := map[];
    }

    /** The record handed back is a new one; it is the peer's own unless the peer had one already. */
    method InsertEmptyPeer(id: NodeId) returns (peer: PeerStatus)
      requires Valid()
      modifies this`peers
      ensures Valid() && fresh(peer) && fresh(peers.Values - old(peers.Values))
      ensures View() == InsertEmpty(old(View()), id)
      ensures peer.id == id && peer.View() == EMPTY
      ensures id in peers && (id !in old(peers) ==> peers[id] == peer)
    {
      peer := new PeerStatus(id, EMPTY);
      if id !in peers {
        peers := peers[id := peer];
        assert forall i :: i in old(peers) ==> peers[i] == old(peers)[i];
      }
    }

    method UpdatePeerStatus(id: NodeId, st: Status) returns (ok: bool)
      requires Valid()
      modifies this`peers, peers.Values, config
      ensures Valid() && fresh(peers.Values - old(peers.Values))
      ensures ok == (st.genesis == old(config.genesis))
      ensures View() == UpdatePeers(old(config.View()), old(View()), id, st)
      ensures config.View() == UpdateConfig(old(config.View()), old(View()), id, st)
    {
      if st.genesis != config.genesis {
        return false;
      }
      if id in peers {
        var changed := UpdateExisting(id, st);
        if changed {
          UpdateKnownMaxBlockInfo(st);
        }
      } else {
        Insert(id, st);
        UpdateKnownMaxBlockInfo(st);
      }
      return true;
    }

    method UpdateExisting(id: NodeId, st: Status) returns (changed: bool)
      requires Valid() && id in peers
      modifies peers.Values
      ensures Valid()
      ensures changed == Changes(old(View())[id], st)
      ensures View() == old(View())[id := Updated(old(View())[id], st)]
    {
      changed := peers[id].Update(st);
      forall i | i in peers && i != id
        ensures peers[i].View() == old(peers[i].View())
      {
        assert peers[i] != peers[id];
      }
    }

    method Insert(id: NodeId, st: Status)
      requires Valid() && id !in peers
      modifies this`peers
      ensures Valid() && fresh(peers.Values - old(peers.Values))
      ensures View() == old(View())[id := st]
    {
      var peer := new PeerStatus(id, st);
      peers := peers[id := peer];
    }

    method UpdateKnownMaxBlockInfo(st: Status)
      modifies config
      ensures config.View() == if st.genesis != old(config.genesis) then old(config.View())
                               else RaiseKnown(old(config.View()), st.number, st.hash)
    {
      if st.genesis != config.genesis || st.number <= config.knownHighest {
        return;
      }
      config.SetKnownHighest(st.number, st.hash);
    }

    method DeletePeer(id: NodeId)
      requires Valid()
      modifies this`peers
      ensures Valid() && peers.Values <= old(peers.Values)
      ensures View() == old(View()) - {id}
    {
      peers := peers - {id};
    }

    method DeletePeers(stale: seq<NodeId>)
      requires Valid()
      modifies this`peers
      ensures Valid() && peers.Values <= old(peers.Values)
      ensures View() == old(View()) - set id | id in stale
    {
      for i := 0 to |stale|
        invariant Valid() && peers.Values <= old(peers.Values)
        invariant View() == old(View()) - set id | id in stale[..i]
      {
        DeletePeer(stale[i]);
        assert stale[..i + 1] == stale[..i] + [stale[i]];
      }
      assert stale[..|stale|] == stale;
    }

    /** The random order of one traversal: any choices of the generator give a permutation of the keys. */
    method RandomOrder() returns (order: seq<NodeId>)
      requires Valid()
      ensures multiset(order) == multiset(peers.Keys)
    {
      var keys := KeySequence(peers.Keys);
      if keys == [] {
        return keys;
      }
      var a := new NodeId[|keys|](i requires 0 <= i < |keys| => keys[i]);
      assert a[..] == keys;
      Shuffle(a);
      order := a[..];
    }

    /** Visiting the peers in random order until the visitor says stop. */
    method ForeachPeerRandom(visit: NodeId -> bool) returns (visited: seq<NodeId>, order: seq<NodeId>)
      requires Valid()
      ensures multiset(order) == multiset(peers.Keys) && visited <= order
      ensures forall k :: 0 <= k < |visited| - 1 ==> visit(visited[k])
      ensures |visited| < |order| ==> |visited| > 0 && !visit(visited[|visited| - 1])
    {
      order := RandomOrder();
      visited := [];
      for i := 0 to |order|
        invariant visited == order[..i]
        invariant forall k :: 0 <= k < i ==> visit(order[k])
      {
        visited := visited + [order[i]];
        if !visit(order[i]) {
          return;
        }
      }
    }
  }

  method KeySequence(keys: set<NodeId>) returns (s: seq<NodeId>)
    ensures multiset(s) == multiset(keys)
  {
    s := [];
    var rest := keys;
    while rest != {}
      invariant multiset(s) + multiset(rest) == multiset(keys)
      decreases |rest|
    {
      var k :| k in rest;
      s := s + [k];
      rest := rest - {k};
    }
  }

  method Shuffle(a: array<NodeId>)
    requires a.Length > 0
    modifies a
    ensures multiset(a[..]) == multiset(old(a[..]))
  {
    var i := a.Length - 1;
    while i > 0
      invariant 0 <= i < a.Length
      invariant multiset(a[..]) == multiset(old(a[..]))
    {
      var select :| 0 <= select <= i;
      a[i], a[select] := a[select], a[i];
      i := i - 1;
    }
  }

  /** A permutation of a set of keys visits each key exactly once. */
  lemma PermutationIsDuplicateFree(order: seq<NodeId>, keys: set<NodeId>)
    requires multiset(order) == multiset(keys)
    ensures forall i, j :: 0 <= i < j < |order| ==> order[i] != order[j]
    ensures forall k :: k in keys <==> k in order
  {
    forall i, j | 0 <= i < j < |order|
      ensures order[i] != order[j]
    {
      assert order == order[..j] + [order[j]] + order[j + 1..];
      assert order[i] in order[..j];
      assert order[i] in multiset(order[..j]);
      assert order[i] == order[j] ==> multiset(order)[order[i]] >= 2;
      assert multiset(keys)[order[i]] <= 1;
    }
    forall k
      ensures k in keys <==> k in order
    {
      assert k in multiset(order) <==> k in order;
      assert k in multiset(keys) <==> k in keys;
    }
  }
}
