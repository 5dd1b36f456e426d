/** The values that travel between the presence server and its desktop client:
    one JSON object per line, kept here as datatypes instead of text. */
module Wire {

  datatype Option<+T> = None | Some(value: T)

  /** Opaque session identifier of a connected voice user. */
  type SessionId = int

  /** One entry of the `users` object: the user's name and, when the user is
      deaf or muted, a `status` string ("deaf" or "mute" as the server writes it). */
  datatype UserEntry = UserEntry(name: string, status: Option<string>)

  /** A presence snapshot as a JSON object: an optional `error` key and an
      optional `users` key.  The server writes exactly one of the two; the
      client must cope with both, either or neither being present. */
  datatype Snapshot = Snapshot(error: Option<string>, users: Option<map<SessionId, UserEntry>>)

  /** One line of the protocol: the handshake `{"params": {"max_interval": ..}}`
      or a snapshot. */
  datatype Message = ParamsMsg(maxInterval: nat) | StateMsg(snapshot: Snapshot)

  const DeafStatus: string := "deaf"
  const MuteStatus: string := "mute"

  /** The error marker the server sends when the voice server cannot be reached. */
  const OfflineMarker: Snapshot := Snapshot(Some("offline"), None)

  /** Lifts a sequence of snapshots to the protocol lines that carry them. */
  function StateMsgs(ss: seq<Snapshot>): (r: seq<Message>)
    ensures |r| == |ss|
    ensures forall i :: 0 <= i < |ss| ==> r[i] == StateMsg(ss[i])
  {
    seq(|ss|, i requires 0 <= i < |ss| => StateMsg(ss[i]))
  }

  lemma StateMsgsAppend(a: seq<Snapshot>, b: seq<Snapshot>)
    ensures StateMsgs(a + b) == StateMsgs(a) + StateMsgs(b)
  {
    var l, r := StateMsgs(a + b), StateMsgs(a) + StateMsgs(b);
    assert forall i :: 0 <= i < |l| ==> l[i] == r[i];
  }
}
