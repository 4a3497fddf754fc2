/** x/unifi/message.go: setting the text shown on a doorbell's display. */
module UnifiMessage {
  import opened Options
  import opened Net
  import opened Errors
  import opened UnifiClient

  const NanosPerSecond := 1_000_000_000
  const CustomMessage := "CUSTOM_MESSAGE"

  /**
   * uint64(d.Seconds()) for a duration of d nanoseconds: the whole seconds, truncated
   * toward zero; a negative count is converted to uint64 by wrapping.
   */
  function PayloadDuration(d: int64): (s: uint64)
    ensures d >= 0 ==> s == d / NanosPerSecond
  {
    var n: int := d;
    var secs := if n >= 0 then n / NanosPerSecond else -((-n) / NanosPerSecond);
    if secs >= 0 then secs else secs + 0x1_0000_0000_0000_0000
  }

  /** A whole number of seconds survives the conversion unchanged. */
  lemma PayloadDurationOfWholeSeconds(n: nat)
    requires n * NanosPerSecond < 0x8000_0000_0000_0000
    ensures PayloadDuration(n * NanosPerSecond) == n
  {
  }

  /** The request SetMessage sends: a PATCH of /api/cameras/<id> with the custom-message payload. */
  function MessageRequest(c: Config, header: Header, doorbellID: string, message: string, duration: int64): (r: Outgoing)
    ensures r.verb == "PATCH" && r.header == header
    ensures UrlString(r.url) == "https://" + c.unifiIp + ":7443" + "/api/cameras/" + doorbellID
    ensures r.body == Json(LcdMessage(PayloadDuration(duration), message, "CUSTOM_MESSAGE"))
  {
    Outgoing("PATCH", Endpoint(c, "/api/cameras/" + doorbellID), header,
             Json(LcdMessage(PayloadDuration(duration), message, CustomMessage)))
  }

  /**
   * SetMessage: one PATCH of /api/cameras/<id> carrying lcdMessage {duration, text, CUSTOM_MESSAGE};
   * it succeeds exactly when that request is answered below 300, and its errors are wrapped.
   */
  function SetMessage(c: Client, doorbellID: string, message: string, duration: int64, transport: Transport,
                      cancelledFirst: bool): (r: Option<Error>)
    reads c
    ensures var sent := MessageRequest(c.config, c.header, doorbellID, message, duration);
      (r.None? <==> !cancelledFirst && transport(sent).Replied? && transport(sent).response.status < 300)
    ensures r.Some? ==> r.value.Wrapped? && r.value.context == "failed to set message"
  {
    var res := c.JsonRequest<bool>("PATCH", Endpoint(c.config, "/api/cameras/" + doorbellID),
                                   Some(LcdMessage(PayloadDuration(duration), message, CustomMessage)),
                                   None, transport, cancelledFirst);
    if res.Err? then Some(Wrapped("failed to set message", res.error)) else None
  }
}
