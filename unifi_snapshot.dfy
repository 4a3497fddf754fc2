/** x/unifi/snapshot.go: fetching a camera's snapshot image into the caller's writer. */
module UnifiSnapshot {
  import opened Options
  import opened Net
  import opened Errors
  import opened UnifiClient

  /** What GetSnapshot returns and what it wrote into the writer. */
  datatype Snapshot = Snapshot(err: Option<Error>, written: seq<byte>)

  function SnapshotURL(c: Config, doorbellID: string): Url {
    Endpoint(c, "/api/cameras/" + doorbellID + "/snapshot")
  }

  /**
   * GetSnapshot: a GET of /api/cameras/<id>/snapshot. A failed request is wrapped; a status
   * of 300 or more is an HttpError with the status text, the code, the URL and GET; in both
   * cases nothing is written. Below 300 the whole body is written and the result is nil.
   */
  function GetSnapshot(c: Client, doorbellID: string, transport: Transport, cancelledFirst: bool): (r: Snapshot)
    reads c
    ensures var res := c.Request("GET", SnapshotURL(c.config, doorbellID), Empty, transport, cancelledFirst);
      && (res.Err? ==> r == Snapshot(Some(Wrapped("failed to get snapshot", res.error)), []))
      && (r.err.None? <==> res.Ok? && res.value.status < 300)
      && (r.err.None? ==> r.written == res.value.body)
      && (res.Ok? && res.value.status >= 300 ==>
            r == Snapshot(Some(Status(HttpError(res.value.statusText, res.value.status,
                                                  SnapshotURL(c.config, doorbellID), "GET"))), []))
    ensures r.err.Some? ==> r.written == []
  {
    var u := SnapshotURL(c.config, doorbellID);
    match c.Request("GET", u, Empty, transport, cancelledFirst)
    case Err(e) => Snapshot(Some(Wrapped("failed to get snapshot", e)), [])
    case Ok(res) =>
      if res.status >= 300 then Snapshot(Some(Status(HttpError(res.statusText, res.status, u, "GET"))), [])
      else Snapshot(None, res.body)
  }
}
