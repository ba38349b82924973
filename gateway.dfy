/**
 The decisions taken by the HTTP routes: serve or redirect on GET /, and the
 status of a write on POST /.
 */
module Gateway {
  import opened Store

  datatype Option<T> = None | Some(value: T)

  /** The HTTP addresses of the fixed three-node cluster, by node ID. */
  const ClusterHttp: map<u64, string> :=
    map[10 := "http://127.0.0.1:8010", 20 := "http://127.0.0.1:8020", 30 := "http://127.0.0.1:8030"]

  /** A Go map lookup: an ID outside the table gives the empty string. */
  function HttpAddress(node: u64): (r: string)
    ensures r != "" <==> node in ClusterHttp
    ensures r != "" ==> r == ClusterHttp[node] && r in ClusterHttp.Values
  {
    if node in ClusterHttp then ClusterHttp[node] else ""
  }

  /**
   The answer of GET /: an empty body with a Location header naming the
   leader's address, or the current mapping as the body.
   */
  datatype ReadResponse = Redirect(location: string) | Body(data: Mapping)

  const StatusOK := 200
  const StatusBadRequest := 400
  const StatusInternalServerError := 500
  const StatusServiceUnavailable := 503

  /** The status a POST / answers with, and the payload it hands to Append, if any. */
  datatype PostResult = PostResult(status: int, submitted: Option<string>)

  /**
   The write gateway. The body is decoded and encoded before leadership is
   looked at; a follower answers 503 without submitting; the leader submits
   the encoding and answers from a second encoding alone, so an Append error
   never reaches the client.
   */
  function PostDecision(body: Decoded, encoded: Option<string>, isLeader: bool, reencoded: bool): (d: PostResult)
    ensures d.status in {StatusOK, StatusBadRequest, StatusInternalServerError, StatusServiceUnavailable}
    ensures d.status == StatusBadRequest <==> body.Malformed?
    ensures d.status == StatusServiceUnavailable <==> !body.Malformed? && encoded.Some? && !isLeader
    ensures d.submitted.Some? <==> !body.Malformed? && encoded.Some? && isLeader
    ensures d.submitted.Some? ==> d.submitted == encoded
    ensures d.status == StatusOK <==> d.submitted.Some? && reencoded
  {
    if body.Malformed? then PostResult(StatusBadRequest, None)
    else if encoded.None? then PostResult(StatusInternalServerError, None)
    else if !isLeader then PostResult(StatusServiceUnavailable, None)
    else if !reencoded then PostResult(StatusInternalServerError, encoded)
    else PostResult(StatusOK, encoded)
  }
}
