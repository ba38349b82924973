# abmap node: replicated state machine

This project models one node of abmap, a small replicated string-to-string
store. The node keeps four pieces of shared state: the mapping `state`, the
round of the last applied commit `stateCommit`, the flag `isLeader` and the
leader hint `currentLeader`, where 0 means "unknown". The consensus engine
changes them through four callbacks:

- `OnLeaderChange`
- `OnAppend`
- `LostLeadership`
- `GainedLeadership`

The recovery loop `fetchSnapshots` adopts the snapshot of any peer whose
commit is strictly newer. Three HTTP routes read the state or gate writes.

Layout:

- `store.dfy` (module `Store`): the value types and how one commit, or a
  stream of commits, changes the `(state, stateCommit)` pair.
- `recovery.dfy` (module `Recovery`): fetch outcomes, adopt-if-newer,
  reconciliation as a fold over the peers, and the lemmas about it.
- `gateway.dfy` (module `Gateway`): the cluster's HTTP address table and the
  decision taken by `POST /`.
- `node.dfy` (module `Replica`): the class `Node`, which holds the four
  fields. Each handler is a method that runs atomically, as the single lock
  makes it. The calls into the consensus engine, `ConfirmAppend` and
  `Append`, are recorded in the ghost sequences `confirmed` and `proposals`.

In these places the code behaves in ways a reader of a replicated store might not expect; the model follows the code:

- `OnAppend` decodes into the existing map, so keys missing from the payload
  survive. It is a merge, not a full replacement.
- On a malformed payload the round still advances and is still confirmed.
- `POST /` decodes and encodes the body before it looks at leadership, so a
  malformed body on a follower gets 400, not 503.
- The error returned by `Append` is overwritten by the second encoding at
  main.go:150. The client never sees it.
- `GainedLeadership` reconciles synchronously, inside the callback.
- `GET /` redirects with a `Location` header only, without a redirect
  status. The model returns `Redirect(address)`.
- If the leader's ID is not in the table, the address is `""`, as a Go map
  lookup gives.

## Model

| member | source | states |
|---|---|---|
| Store.DecodeInto | main.go:57 | Decoding an object into the existing map writes every payload key with its payload value and keeps every other key; the key set is the union. A JSON null resets the map to empty. A decode error leaves the map unchanged. |
| Store.ApplyAllLastWriter | main.go:53-60 | After a stream of commits, the round is that of the last commit. Each key holds what the last commit touching it wrote: absent if that commit was a null, its starting value if no commit touched it. |
| Recovery.AdoptIfNewer | main.go:177-182 | The result is either the local pair or the candidate. Its commit is at least both commits. It differs from the local pair only when the candidate's commit is strictly greater, so the candidate is adopted exactly when its commit is strictly newer. |
| Recovery.ReconciledIsMax | main.go:159-184 | The commit after recovery is at least the starting commit and at least the commit of every usable peer (not this node, fetched and decoded). Either nothing changed, or the result is the snapshot of a usable peer whose commit is strictly newer than the start. So the commit is the maximum and never decreases. |
| Recovery.ReconciledCommitOrderFree | main.go:160 | The final commit does not depend on the order the peers are visited in, which Go's random map iteration leaves open. |
| Recovery.UsablePeers | main.go:161-175 | A peer is kept exactly when it occurs in the input and the loop does not skip it. Each usable peer is kept as many times as it occurs in the input, and no other peer is kept, so no peer is invented, dropped or duplicated. |
| Recovery.ReconciledSkipsUnusable | main.go:161-175 | Unreachable peers, undecodable answers and the node's own entry change nothing. Recovery over the usable peers alone gives the same pair. |
| Recovery.ThreePeerRecovery | main.go:159-184 | The setup: local round 2, peer A at round 5, peer B unreachable, peer C at round 3, and the node's own entry at round 9. Recovery ends at A's round-5 snapshot. The node's own entry is skipped. |
| Gateway.HttpAddress | main.go:113 | The address is non-empty exactly when the leader hint names a member of the cluster table, and then it is that member's table entry; otherwise the `Location` header is sent empty. |
| Gateway.PostDecision | main.go:127-154 | 400 exactly when the body does not decode, whatever the leadership. 503 exactly when the body decodes and encodes but the node is not leader. A submission happens exactly when the body decodes and encodes on the leader, and it carries the encoding. 200 exactly when a submission happened and the second encoding succeeded. |
| Replica.Node.constructor | main.go:31-35 | Start-up state: empty mapping, commit 0, follower, leader unknown, no engine calls. This is followed by one recovery pass (main.go:100). |
| Replica.Node.OnLeaderChange | main.go:46-51 | Sets only `currentLeader` to the given ID. `isLeader`, `state` and `stateCommit` are unchanged. |
| Replica.Node.OnAppend | main.go:53-60 | The state becomes the payload decoded into the old map. `stateCommit` becomes the round, and the round is confirmed exactly once, whether or not the payload decodes. Leadership is untouched. |
| Replica.Node.LostLeadership | main.go:62-68 | Yields follower with leader unknown, and leaves the pair unchanged. |
| Replica.Node.GainedLeadership | main.go:70-77 | Yields leader with leader unknown. Then the pair is the result of recovery over the peers, so the commit never decreases. |
| Replica.Node.Adopt | main.go:177-182 | Reports adoption exactly when the fetched commit is strictly greater. The new pair is adopt-if-newer of the old one: a full replacement of the map. |
| Replica.Node.FetchSnapshots | main.go:159-184 | The loop ends with the pair equal to the reconciliation fold over the peers. The commit has not decreased and is at least every usable peer's commit. The pair is either unchanged or some usable peer's snapshot. |
| Replica.Node.GetRoot | main.go:109-117 | Redirects exactly when the node is not leader and the leader is known, and then names the leader's address. Otherwise it serves the current state. |
| Replica.Node.GetSnapshot | main.go:118-126 | Returns the current `(state, stateCommit)` pair, whatever the leadership, and changes nothing. |
| Replica.Node.Post | main.go:127-154 | The status is the gateway decision, which does not depend on whether `Append` fails. The encoding is appended to the proposals exactly once when submitted, and the proposals are unchanged otherwise. The state, the commit and the leadership never change. |

## Left out

- HTTP serving, routing, headers and the peer `GET /snapshot` requests: each peer fetch is an input of type `Fetch` (unreachable, undecodable, or a snapshot).
- The consensus engine (node creation, peers, key, run loop, `Append`, `ConfirmAppend`): these are foreign calls. `Append` and `ConfirmAppend` are recorded as ghost events. Whether `Append` fails is an input that nothing reads.
- JSON encoding and decoding: a decode result is given as `Decoded` (object, null, or malformed). An encoding is given as an optional string.
- Store.DecodeInto: treats any decode error as leaving the map unchanged. Go's decoder may already have stored some entries of a partly read object.
- A JSON null decodes to a nil map, which is modelled as the empty mapping. The difference shows only in how it is later encoded (`null` rather than `{}`).
- The mutex and the concurrently running engine goroutine: each handler is one atomic step. The real `fetchSnapshots` takes the lock only around each adoption step, so other handlers may interleave between peers. The model does not capture that.
- Flag parsing, the cluster-ID check, `log.Fatal`, `panic` and printing (main.go:79-103, 156): bootstrap and logging. The constructor only requires the ID check's outcome.
- Fetches that never return: `http.Get` (main.go:165) uses Go's default client, which has no timeout. A peer that accepts the connection and never answers blocks `fetchSnapshots` forever, at start-up (main.go:100) and inside `GainedLeadership` (main.go:76). Every `Fetch` outcome in the model finishes, so the model covers only runs in which every fetch returns.
- Which peer's data wins among peers with equal maximal commits depends on iteration order. It is stated only as "some usable peer's snapshot".
- The link between what `POST /` submits and what `OnAppend` later receives goes through the engine and the JSON codec. It is not modelled.
