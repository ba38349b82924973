/**
 The replicated state store of one node: the string-to-string mapping, the
 round of the last applied commit, and how a commit from the replication
 stream is applied to them.
 */
module Store {

  /** Go's uint64: node IDs and commit rounds. */
  type u64 = x: int | 0 <= x < 0x1_0000_0000_0000_0000

  type Mapping = map<string, string>

  /** The pair that GET /snapshot serves and peers exchange during recovery. */
  datatype Snapshot = Snapshot(data: Mapping, commit: u64)

  /**
   What decoding a JSON text into a map[string]string gives: an object, the
   literal null, or an error.
   */
  datatype Decoded = Object(entries: Mapping) | Null | Malformed

  /**
   Decoding into an existing map, as OnAppend does with `&state`: the keys of
   the object are written over the map and every other key survives; null
   resets the map to nil, which reads as empty; an error leaves it alone.
   */
  function DecodeInto(m: Mapping, d: Decoded): (r: Mapping)
    ensures d.Object? ==> r.Keys == m.Keys + d.entries.Keys
    ensures d.Object? ==> forall k :: k in d.entries ==> r[k] == d.entries[k]
    ensures d.Object? ==> forall k :: k in m && k !in d.entries ==> r[k] == m[k]
    ensures d.Null? ==> r == map[]
    ensures d.Malformed? ==> r == m
  {
    match d
    case Object(e) => m + e
    case Null => map[]
    case Malformed => m
  }

  /** One commit delivered by the consensus engine: its round and its decoded payload. */
  datatype Entry = Entry(round: u64, payload: Decoded)

  /** The effect of one OnAppend on the (state, stateCommit) pair. */
  function Apply(s: Snapshot, e: Entry): Snapshot
  {
    Snapshot(DecodeInto(s.data, e.payload), e.round)
  }

  /** The effect of a whole stream of commits, applied first to last. */
  function ApplyAll(s: Snapshot, es: seq<Entry>): Snapshot
  {
    if es == [] then s else Apply(ApplyAll(s, es[..|es| - 1]), es[|es| - 1])
  }

  /** Whether a commit's payload decides the value (or absence) of key k. */
  predicate Touches(e: Entry, k: string)
  {
    e.payload.Null? || (e.payload.Object? && k in e.payload.entries)
  }

  /**
   Last writer wins, per key: after a stream of commits the round is that of
   the last commit, and each key holds what the last commit touching it
   wrote (absent if that commit was a null), or its starting value if no
   commit touched it.
   */
  lemma {:induction false} ApplyAllLastWriter(s: Snapshot, es: seq<Entry>, k: string)
    ensures es != [] ==> ApplyAll(s, es).commit == es[|es| - 1].round
    ensures es == [] ==> ApplyAll(s, es) == s
    ensures (forall j :: 0 <= j < |es| ==> !Touches(es[j], k)) ==>
              (k in ApplyAll(s, es).data <==> k in s.data) &&
              (k in s.data ==> ApplyAll(s, es).data[k] == s.data[k])
    ensures forall j :: 0 <= j < |es| && Touches(es[j], k) &&
                        (forall i :: j < i < |es| ==> !Touches(es[i], k)) ==>
              (k in ApplyAll(s, es).data <==> es[j].payload.Object?) &&
              (es[j].payload.Object? ==> ApplyAll(s, es).data[k] == es[j].payload.entries[k])
  {
    if es != [] {
      var pre, last := es[..|es| - 1], es[|es| - 1];
      ApplyAllLastWriter(s, pre, k);
      var before := ApplyAll(s, pre);
      var after := ApplyAll(s, es);
      assert after == Apply(before, last);
      assert forall j :: 0 <= j < |pre| ==> pre[j] == es[j];
      if !Touches(last, k) {
        assert k in after.data <==> k in before.data;
        assert k in before.data ==> after.data[k] == before.data[k];
      }
    }
  }
}
