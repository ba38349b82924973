/**
 One node of the replicated key-value store: the four pieces of shared state
 and the entry points that change them. Every method is one handler run
 atomically under the node's single lock.
 */
module Replica {
  import opened Store
  import opened Recovery
  import opened Gateway

  class Node {
    /** This node's ID, fixed at start-up. */
    const id: u64
    var state: Mapping
    var stateCommit: u64
    var isLeader: bool
    /** The ID of the node believed to lead; 0 means unknown. */
    var currentLeader: u64

    /** The rounds passed to the consensus engine's ConfirmAppend, in order. */
    ghost var confirmed: seq<u64>
    /** The payloads passed to the consensus engine's Append, in order. */
    ghost var proposals: seq<string>

    /** The (state, stateCommit) pair. */
    function Current(): Snapshot
      reads this
    {
      Snapshot(state, stateCommit)
    }

    /**
     Start-up: empty state, commit 0, follower with no known leader, and then
     one round of recovery against the peers.
     */
    constructor (id: u64, peers: seq<Peer>)
      requires id in ClusterHttp
      ensures this.id == id
      ensures Current() == Reconciled(Snapshot(map[], 0), id, peers)
      ensures !isLeader && currentLeader == 0
      ensures confirmed == [] && proposals == []
    {
      this.id := id;
      state := map[];
      stateCommit := 0;
      isLeader := false;
      currentLeader := 0;
      confirmed := [];
      proposals := [];
      new;
      FetchSnapshots(peers);
    }

    /** The engine reports a new leader: only the leader hint changes. */
    method OnLeaderChange(leaderId: u64)
      modifies this`currentLeader
      ensures currentLeader == leaderId
      ensures isLeader == old(isLeader) && Current() == old(Current())
    {
      currentLeader := leaderId;
    }

    /**
     The engine delivers a commit. The payload is decoded into the existing
     map; the round advances and is confirmed once whether or not it decoded.
     Since each call moves the pair by Apply, successive calls move it by
     ApplyAll over their entries, which ApplyAllLastWriter characterises.
     */
    method OnAppend(round: u64, payload: Decoded)
      modifies this`state, this`stateCommit, this`confirmed
      ensures Current() == Apply(old(Current()), Entry(round, payload))
      ensures stateCommit == round
      ensures confirmed == old(confirmed) + [round]
      ensures isLeader == old(isLeader) && currentLeader == old(currentLeader)
    {
      state := DecodeInto(state, payload);
      stateCommit := round;
      confirmed := confirmed + [round];
    }

    method LostLeadership()
      modifies this`isLeader, this`currentLeader
      ensures !isLeader && currentLeader == 0
      ensures Current() == old(Current())
    {
      isLeader := false;
      currentLeader := 0;
    }

    /**
     The node becomes leader, forgets the leader hint, and reconciles with its
     peers before the callback returns.
     */
    method GainedLeadership(peers: seq<Peer>)
      modifies this`isLeader, this`currentLeader, this`state, this`stateCommit
      ensures isLeader && currentLeader == 0
      ensures Current() == Reconciled(old(Current()), id, peers)
      ensures stateCommit >= old(stateCommit)
    {
      isLeader := true;
      currentLeader := 0;
      FetchSnapshots(peers);
    }

    /** The lock-protected step of recovery: adopt a fetched snapshot if strictly newer. */
    method Adopt(snapshot: Snapshot) returns (applied: bool)
      modifies this`state, this`stateCommit
      ensures applied <==> snapshot.commit > old(stateCommit)
      ensures Current() == AdoptIfNewer(old(Current()), snapshot)
    {
      applied := snapshot.commit > stateCommit;
      if applied {
        state := snapshot.data;
        stateCommit := snapshot.commit;
      }
    }

    /**
     Recovery: visit every entry of the cluster table, skip this node and
     every peer whose fetch or decode failed, and adopt strictly newer
     snapshots. The commit ends at the maximum of the starting one and those
     of the usable peers.
     */
    method FetchSnapshots(peers: seq<Peer>)
      modifies this`state, this`stateCommit
      ensures Current() == Reconciled(old(Current()), id, peers)
      ensures stateCommit >= old(stateCommit)
      ensures forall i :: 0 <= i < |peers| && Usable(id, peers[i]) ==>
                stateCommit >= peers[i].fetch.snapshot.commit
      ensures Current() == old(Current()) ||
              exists i :: 0 <= i < |peers| && Usable(id, peers[i]) && Current() == peers[i].fetch.snapshot
    {
      ghost var start := Current();
      var i := 0;
      while i < |peers|
        invariant 0 <= i <= |peers|
        invariant Current() == Reconciled(start, id, peers[..i])
      {
        var peer := peers[i];
        assert peers[..i + 1][..i] == peers[..i];
        if peer.id != id {
          match peer.fetch
          case Unreachable =>
          case Undecodable =>
          case Fetched(snapshot) =>
            var applied := Adopt(snapshot);
        }
        i := i + 1;
      }
      assert peers[..i] == peers;
      ReconciledIsMax(start, id, peers);
    }

    /** GET /: redirect to the leader when this node follows a known leader, else serve the state. */
    method GetRoot() returns (r: ReadResponse)
      ensures r.Redirect? <==> !isLeader && currentLeader != 0
      ensures r.Redirect? ==> r.location == HttpAddress(currentLeader)
      ensures r.Body? ==> r.data == state
    {
      if !isLeader && currentLeader != 0 {
        return Redirect(HttpAddress(currentLeader));
      }
      r := Body(state);
    }

    /** GET /snapshot: the pair as it stands, whatever the leadership. */
    method GetSnapshot() returns (s: Snapshot)
      ensures s.data == state && s.commit == stateCommit
    {
      s := Snapshot(state, stateCommit);
    }

    /**
     POST /. `body` is the decoded request body, `encoded` the result of the
     first encoding, `appendFails` whether the engine's Append reports an
     error, and `reencoded` whether the second encoding succeeds.
     */
    method Post(body: Decoded, encoded: Option<string>, appendFails: bool, reencoded: bool)
      returns (status: int)
      modifies this`proposals
      ensures status == PostDecision(body, encoded, isLeader, reencoded).status
      ensures PostDecision(body, encoded, isLeader, reencoded).submitted.Some? ==>
                proposals == old(proposals) + [encoded.value]
      ensures PostDecision(body, encoded, isLeader, reencoded).submitted.None? ==>
                proposals == old(proposals)
      ensures Current() == old(Current()) && isLeader == old(isLeader) && currentLeader == old(currentLeader)
    {
      if body.Malformed? {
        return StatusBadRequest;
      }
      if encoded.None? {
        return StatusInternalServerError;
      }
      if !isLeader {
        return StatusServiceUnavailable;
      }
      var failed := appendFails;
      proposals := proposals + [encoded.value];
      failed := !reencoded;
      if failed {
        return StatusInternalServerError;
      }
      status := StatusOK;
    }
  }
}
