/**
 The recovery reconciler: pulling snapshots from peers and adopting one only
 when its commit is strictly newer than the local one.
 */
module Recovery {
  import opened Store

  /**
   The outcome of asking one peer for its snapshot: the GET failed, the body
   did not decode, or a snapshot arrived.
   */
  datatype Fetch = Unreachable | Undecodable | Fetched(snapshot: Snapshot)

  /** One entry of the cluster's HTTP table together with what fetching from it gave. */
  datatype Peer = Peer(id: u64, fetch: Fetch)

  /** A peer that the reconciler does not skip: not this node itself, and fetched successfully. */
  predicate Usable(self: u64, p: Peer)
  {
    p.id != self && p.fetch.Fetched?
  }

  /**
   The lock-protected adoption step: the candidate replaces the local pair
   exactly when its commit is strictly greater.
   */
  function AdoptIfNewer(local: Snapshot, candidate: Snapshot): (r: Snapshot)
    ensures r.commit >= local.commit && r.commit >= candidate.commit
    ensures r == local || r == candidate
    ensures r != local ==> candidate.commit > local.commit
  {
    if candidate.commit > local.commit then candidate else local
  }

  /** One iteration of the loop over peers. */
  function Step(acc: Snapshot, self: u64, p: Peer): Snapshot
  {
    if Usable(self, p) then AdoptIfNewer(acc, p.fetch.snapshot) else acc
  }

  /** The local pair after visiting the peers in the given order. */
  function Reconciled(start: Snapshot, self: u64, peers: seq<Peer>): Snapshot
  {
    if peers == [] then start
    else Step(Reconciled(start, self, peers[..|peers| - 1]), self, peers[|peers| - 1])
  }

  /**
   Reconciliation ends at the maximum commit: at least the starting one and
   that of every usable peer, and either nothing was adopted or the result is
   the snapshot of a usable peer whose commit is strictly newer than the start.
   */
  lemma {:induction false} ReconciledIsMax(start: Snapshot, self: u64, peers: seq<Peer>)
    ensures Reconciled(start, self, peers).commit >= start.commit
    ensures forall i :: 0 <= i < |peers| && Usable(self, peers[i]) ==>
              Reconciled(start, self, peers).commit >= peers[i].fetch.snapshot.commit
    ensures Reconciled(start, self, peers) == start ||
            exists i :: 0 <= i < |peers| && Usable(self, peers[i]) &&
                        Reconciled(start, self, peers) == peers[i].fetch.snapshot &&
                        peers[i].fetch.snapshot.commit > start.commit
  {
    if peers != [] {
      var pre, last := peers[..|peers| - 1], peers[|peers| - 1];
      ReconciledIsMax(start, self, pre);
      assert forall i :: 0 <= i < |pre| ==> pre[i] == peers[i];
      var r := Reconciled(start, self, peers);
      if r != Reconciled(start, self, pre) {
        assert Usable(self, last) && r == last.fetch.snapshot;
        assert r.commit > start.commit;
      }
    }
  }

  /** The commit that reconciliation ends at does not depend on the peers' order. */
  lemma ReconciledCommitOrderFree(start: Snapshot, self: u64, peers: seq<Peer>, reordered: seq<Peer>)
    requires multiset(peers) == multiset(reordered)
    ensures Reconciled(start, self, peers).commit == Reconciled(start, self, reordered).commit
  {
    ReconciledIsMax(start, self, peers);
    ReconciledIsMax(start, self, reordered);
    var a, b := Reconciled(start, self, peers), Reconciled(start, self, reordered);
    if b != start {
      var i :| 0 <= i < |reordered| && Usable(self, reordered[i]) && b == reordered[i].fetch.snapshot;
      assert reordered[i] in multiset(peers);
      var j :| 0 <= j < |peers| && peers[j] == reordered[i];
      assert a.commit >= b.commit;
    }
    if a != start {
      var i :| 0 <= i < |peers| && Usable(self, peers[i]) && a == peers[i].fetch.snapshot;
      assert peers[i] in multiset(reordered);
      var j :| 0 <= j < |reordered| && reordered[j] == peers[i];
      assert b.commit >= a.commit;
    }
  }

  /**
   The peers that reconciliation does not skip: each usable peer as often as
   it occurs in the input, and nothing else.
   */
  function UsablePeers(self: u64, peers: seq<Peer>): (r: seq<Peer>)
    ensures forall p :: p in r <==> p in peers && Usable(self, p)
    ensures multiset(r) <= multiset(peers)
    ensures forall p :: multiset(r)[p] == if Usable(self, p) then multiset(peers)[p] else 0
  {
    if peers == [] then []
    else
      var pre := UsablePeers(self, peers[..|peers| - 1]);
      assert peers == peers[..|peers| - 1] + [peers[|peers| - 1]];
      if Usable(self, peers[|peers| - 1]) then pre + [peers[|peers| - 1]] else pre
  }

  /**
   Failed fetches, undecodable answers and the node's own entry change
   nothing: reconciling over the usable peers alone gives the same pair.
   */
  lemma {:induction false} ReconciledSkipsUnusable(start: Snapshot, self: u64, peers: seq<Peer>)
    ensures Reconciled(start, self, UsablePeers(self, peers)) == Reconciled(start, self, peers)
  {
    if peers != [] {
      var pre, last := peers[..|peers| - 1], peers[|peers| - 1];
      ReconciledSkipsUnusable(start, self, pre);
      var u := UsablePeers(self, pre);
      if Usable(self, last) {
        assert (u + [last])[..|u + [last]| - 1] == u;
      }
    }
  }

  /**
   A node with local round 2 that asks peers A (round 5), B (unreachable) and
   C (round 3), and also sees its own entry, ends at round 5 with A's data.
   The peers form an arbitrary sequence, as everywhere in this model, so C's
   ID 40 lies outside the fixed three-node table of the deployed cluster.
   */
  lemma ThreePeerRecovery(local: Mapping, a: Mapping, c: Mapping, own: Mapping)
    ensures Reconciled(Snapshot(local, 2), 10,
                       [Peer(20, Fetched(Snapshot(a, 5))), Peer(30, Unreachable),
                        Peer(10, Fetched(Snapshot(own, 9))), Peer(40, Fetched(Snapshot(c, 3)))])
            == Snapshot(a, 5)
  {
    var peers := [Peer(20, Fetched(Snapshot(a, 5))), Peer(30, Unreachable),
                  Peer(10, Fetched(Snapshot(own, 9))), Peer(40, Fetched(Snapshot(c, 3)))];
    var start := Snapshot(local, 2);
    assert peers[..1][..0] == [];
    assert Reconciled(start, 10, peers[..1]) == Snapshot(a, 5);
    assert peers[..2][..1] == peers[..1];
    assert Reconciled(start, 10, peers[..2]) == Snapshot(a, 5);
    assert peers[..3][..2] == peers[..2];
    assert Reconciled(start, 10, peers[..3]) == Snapshot(a, 5);
    assert peers[..3] == peers[..|peers| - 1];
  }
}
