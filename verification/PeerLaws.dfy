/** What a status message does to the records and the known height, and what the peer maintenance tells the
    group, from the sender to the receiver. */
module PeerLaws {
  import opened SyncTypes
  import opened SyncConfig
  import opened PeerTracking
  import opened RequestPlanner
  import opened SyncProtocol
  import opened SyncInvariants
  import opened BlockSync

  // ---- a status message ----

  /** A status of the node's own chain is stored as it is, one of another chain not at all; no other record
      changes, and the known pair becomes the higher one of the two, number and hash together. */
  lemma StatusLaw(c: Config, peers: Peers, id: NodeId, st: Status)
    requires GoodPeers(c, peers)
    ensures var c', peers' := UpdateConfig(c, peers, id, st), UpdatePeers(c, peers, id, st);
      && (st.genesis != c.genesis ==> c' == c && peers' == peers)
      && (st.genesis == c.genesis ==>
            && peers'.Keys == peers.Keys + {id}
            && peers'[id].number == st.number && peers'[id].hash == st.hash
            && (peers'[id].genesis == c.genesis || (id in peers && peers'[id] == peers[id]))
            && (forall p :: p in peers && p != id ==> peers'[p] == peers[p])
            && c' == if st.number > c.knownHighest then c.(knownHighest := st.number, knownHash := st.hash) else c)
  {
    assert id in peers ==> GoodPeer(c, peers[id]);
  }

  /** The same of the whole step: a node outside the group is only heard when it is ahead. */
  lemma ReceiveStatusLaw(s: State, id: NodeId, st: Status, inGroup: bool)
    requires Inv(s) && Enabled(s, ReceiveStatus(id, st, inGroup))
    ensures var t := After(s, ReceiveStatus(id, st, inGroup));
      && t == s.(peers := t.peers, cfg := t.cfg)
      && (st.genesis == s.cfg.genesis && (inGroup || st.number > s.cfg.blockNumber) ==>
            && t.peers.Keys == s.peers.Keys + {id} && t.peers[id].number == st.number && t.peers[id].hash == st.hash
            && (forall p :: p in s.peers && p != id ==> t.peers[p] == s.peers[p])
            && t.cfg.knownHighest == Max(s.cfg.knownHighest, st.number))
      && (st.genesis != s.cfg.genesis || (!inGroup && st.number <= s.cfg.blockNumber) ==> t == s)
  {
    StatusLaw(s.cfg, s.peers, id, st);
    hide UpdateConfig, UpdatePeers;
  }

  /** A request of a group member that is not recorded yet records it as a peer at block 0; every other
      request leaves the records alone. */
  lemma ReceiveRequestLaw(s: State, id: NodeId, inGroup: bool)
    requires Enabled(s, ReceiveRequest(id, inGroup))
    ensures var t := After(s, ReceiveRequest(id, inGroup));
      && t == s.(peers := t.peers)
      && t.peers.Keys == s.peers.Keys + (if inGroup then {id} else {})
      && (forall p :: p in s.peers ==> t.peers[p] == s.peers[p])
      && (inGroup && id !in s.peers ==> t.peers[id] == Status(0, NO_HASH, NO_HASH))
  {
  }

  // ---- who stays a peer ----

  /** Peer maintenance by a group member: a group member stays recorded if and only if it is connected, an
      outsider if it is connected and ahead; the records that stay are not touched, and only the node's own
      record may be new. A node that is not a group member leaves its records alone. */
  lemma PeersLaw(s: State, view: GroupView)
    requires Inv(s)
    ensures var t := RunMaintainPeers(s, view);
      && t == s.(peers := t.peers)
      && (!view.member ==> t == s)
      && (view.member ==> forall id :: id != s.self ==>
            && (id in t.peers <==> id in s.peers && id in view.connected
                                   && (id in view.group || s.peers[id].number > s.cfg.blockNumber))
            && (id in t.peers ==> t.peers[id] == s.peers[id]))
      && (!(exists n :: n in view.group && n in view.connected && n != s.self) ==>
            && (s.self in t.peers <==> s.self in s.peers) && (s.self in s.peers ==> t.peers[s.self] == s.peers[s.self]))
  {
    MaintainPeersKeeps(s, view);
    if view.member {
      StayingLaw(s, view);
      hide Inv, WithStaying;
    }
  }

  lemma StayingLaw(s: State, view: GroupView)
    ensures var t := WithStaying(s, view);
      && t == s.(peers := t.peers)
      && (forall id :: id != s.self ==>
            && (id in t.peers <==> id in s.peers && id in view.connected
                                   && (id in view.group || s.peers[id].number > s.cfg.blockNumber))
            && (id in t.peers ==> t.peers[id] == s.peers[id]))
      && (s.self in t.peers <==> s.self in s.peers) && (s.self in s.peers ==> t.peers[s.self] == s.peers[s.self])
  {
  }

  /** So a node that is behind keeps exactly the connected ones of the peers it could ask. */
  lemma AskablePeersStay(s: State, view: GroupView, id: NodeId)
    requires Inv(s) && view.member && s.cfg.blockNumber < s.cfg.knownHighest && id != s.self
    ensures var t := RunMaintainPeers(s, view);
      id in Eligible(t.peers, t.cfg.knownHighest) <==>
      id in Eligible(s.peers, s.cfg.knownHighest) && id in view.connected
  {
    PeersLaw(s, view);
    hide RunMaintainPeers, Inv;
  }

  // ---- what the group is told ----

  /** The node's own record after it has told anyone is its head. */
  lemma OwnRecordIsHead(s: State, view: GroupView)
    requires Inv(s) && view.member && exists n :: n in view.group && n in view.connected && n != s.self
    ensures var t := RunMaintainPeers(s, view);
      s.self in t.peers && t.peers[s.self].number == s.cfg.blockNumber && t.peers[s.self].hash == s.cfg.hash
  {
    var kept := WithStaying(s, view);
    StayingAreGood(s, view);
    StatusLaw(kept.cfg, kept.peers, s.self, OwnStatus(kept.cfg));
    hide UpdateConfig, UpdatePeers, WithStaying, Inv;
    assert kept.cfg == s.cfg && kept.self == s.self by { WithStayingIs(s, view); }
  }

  lemma WithStayingIs(s: State, view: GroupView)
    ensures WithStaying(s, view) == s.(peers := WithStaying(s, view).peers)
  {
  }

  lemma StayingAreGood(s: State, view: GroupView)
    requires Inv(s)
    ensures GoodPeers(s.cfg, WithStaying(s, view).peers) && WithStaying(s, view).cfg == s.cfg
  {
    assert forall id :: id in s.peers ==> GoodPeer(s.cfg, s.peers[id]);
  }

  function Receivers(told: seq<(NodeId, Status)>): seq<NodeId> {
    seq(|told|, i requires 0 <= i < |told| => told[i].0)
  }

  /** The receivers are the connected group members other than the node, each as often as it is listed, and
      all are told the same. */
  lemma {:induction false} ReceiversAre(group: seq<NodeId>, self: NodeId, connected: set<NodeId>, own: Status, n: NodeId)
    ensures var told := Announcements(group, self, connected, own);
      && multiset(Receivers(told))[n] == (if n != self && n in connected then multiset(group)[n] else 0)
      && forall i :: 0 <= i < |told| ==> told[i].1 == own
  {
    if group != [] {
      var front, last := group[..|group| - 1], group[|group| - 1];
      assert group == front + [last];
      ReceiversAre(front, self, connected, own, n);
      var before, told := Announcements(front, self, connected, own), Announcements(group, self, connected, own);
      if last != self && last in connected {
        assert Receivers(told) == Receivers(before) + [last];
      }
    }
  }

  /** From end to end: what a node tells its group makes every member of the same chain record it at its head,
      and puts the head within what that member knows. */
  lemma TellingIsRecorded(s: State, group: seq<NodeId>, connected: set<NodeId>, i: nat, r: State)
    requires Inv(r) && r.p.maxRequestBlocks > 0 && r.cfg.genesis == s.cfg.genesis
    requires var told := Announcements(group, s.self, connected, OwnStatus(s.cfg)); i < |told|
    ensures var msg := Announcements(group, s.self, connected, OwnStatus(s.cfg))[i].1;
      var t := After(r, ReceiveStatus(s.self, msg, true));
      && s.self in t.peers && t.peers[s.self].number == s.cfg.blockNumber && t.peers[s.self].hash == s.cfg.hash
      && t.cfg.knownHighest == Max(r.cfg.knownHighest, s.cfg.blockNumber)
  {
    var told := Announcements(group, s.self, connected, OwnStatus(s.cfg));
    ReceiversAre(group, s.self, connected, OwnStatus(s.cfg), s.self);
    assert told[i].1 == OwnStatus(s.cfg);
    hide Announcements, Inv;
    ReceiveStatusLaw(r, s.self, OwnStatus(s.cfg), true);
  }
}
