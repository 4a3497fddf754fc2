/**
 * web/api/hanlder.go: the status codes and defaults of the three API handlers.
 * The UniFi client calls are the modelled functions; the JSON codecs are inputs.
 */
module ApiHandler {
  import opened Options
  import opened Net
  import opened Errors
  import opened HttpWriter
  import UnifiClient
  import UnifiSnapshot
  import UnifiMessage

  /** messageTemplateList: the templates as they are configured, or 500 when encoding fails. */
  function TemplateListAnswer(templates: seq<string>, encodeOk: bool, o: Output): Output {
    if encodeOk then WithChunk(o, TemplatesJson(templates)) else WithStatus(o, StatusInternalServerError)
  }

  method MessageTemplateList(templates: seq<string>, encodeOk: bool, w: ResponseWriter)
    modifies w
    ensures w.output == TemplateListAnswer(templates, encodeOk, old(w.output))
  {
    if !encodeOk {
      w.WriteHeader(StatusInternalServerError);
      return;
    }
    w.Write(TemplatesJson(templates));
  }

  /** On a fresh response: 200 with the templates unchanged, or 500 with nothing written. */
  lemma TemplateListOutcome(templates: seq<string>, encodeOk: bool)
    ensures var r := TemplateListAnswer(templates, encodeOk, Fresh);
      (encodeOk ==> FinalStatus(r) == StatusOK && r.body == [TemplatesJson(templates)])
      && (!encodeOk ==> FinalStatus(r) == StatusInternalServerError && r.body == [])
  {
  }

  /**
   * xerrors.Is(err, &unifi.HttpError{}) as written: Is compares the chain with a freshly
   * allocated pointer, which no returned error is. HttpError shows no Is method, so it never holds.
   */
  predicate IsHttpErrorAsWritten(e: Error) {
    false
  }

  /** The recognition the handler evidently means: GetSnapshot returns the HttpError itself. */
  predicate IsHttpErrorIntended(e: Error) {
    e.Status?
  }

  /** What getSnapshot adds after GetSnapshot has copied its bytes (io.Copy writes nothing for an empty body). */
  function SnapshotAnswer(snap: UnifiSnapshot.Snapshot, recognise: Error -> bool, o: Output): Output {
    var copied := if snap.written == [] then o else WithChunk(o, Bytes(snap.written));
    match snap.err
    case None => copied
    case Some(e) =>
      if recognise(e) && e.Status? then WithStatus(copied, e.http.code)
      else WithStatus(copied, StatusInternalServerError)
  }

  /** The specification of getSnapshot, with the error recognition as a parameter. */
  function GetSnapshotAnswer(vars: map<string, string>, c: UnifiClient.Client, transport: UnifiClient.Transport,
                             cancelledFirst: bool, recognise: Error -> bool, o: Output): Output
    reads c
  {
    if "doorbellID" !in vars then WithStatus(o, StatusBadRequest)
    else SnapshotAnswer(UnifiSnapshot.GetSnapshot(c, vars["doorbellID"], transport, cancelledFirst), recognise, o)
  }

  /** getSnapshot as written. */
  method GetSnapshotHandler(vars: map<string, string>, c: UnifiClient.Client, transport: UnifiClient.Transport,
                            cancelledFirst: bool, w: ResponseWriter)
    modifies w
    ensures w.output == GetSnapshotAnswer(vars, c, transport, cancelledFirst, IsHttpErrorAsWritten, old(w.output))
  {
    if "doorbellID" !in vars {
      w.WriteHeader(StatusBadRequest);
      return;
    }
    var snap := UnifiSnapshot.GetSnapshot(c, vars["doorbellID"], transport, cancelledFirst);
    if snap.written != [] {
      w.Write(Bytes(snap.written));
    }
    if snap.err.Some? {
      // the HttpError branch is guarded by IsHttpErrorAsWritten, which never holds
      w.WriteHeader(StatusInternalServerError);
    }
  }

  /** getSnapshot with the HttpError recognised. */
  method GetSnapshotHandlerIntended(vars: map<string, string>, c: UnifiClient.Client, transport: UnifiClient.Transport,
                                    cancelledFirst: bool, w: ResponseWriter)
    modifies w
    ensures w.output == GetSnapshotAnswer(vars, c, transport, cancelledFirst, IsHttpErrorIntended, old(w.output))
  {
    if "doorbellID" !in vars {
      w.WriteHeader(StatusBadRequest);
      return;
    }
    var snap := UnifiSnapshot.GetSnapshot(c, vars["doorbellID"], transport, cancelledFirst);
    if snap.written != [] {
      w.Write(Bytes(snap.written));
    }
    if snap.err.Some? {
      if IsHttpErrorIntended(snap.err.value) && snap.err.value.Status? {
        w.WriteHeader(snap.err.value.http.code);
        return;
      }
      w.WriteHeader(StatusInternalServerError);
    }
  }

  /** Without a doorbellID route variable the answer is 400 and the client is not asked. */
  lemma MissingDoorbellIsBadRequest(c: UnifiClient.Client, transport: UnifiClient.Transport, cancelledFirst: bool,
                                    recognise: Error -> bool)
    ensures FinalStatus(GetSnapshotAnswer(map[], c, transport, cancelledFirst, recognise, Fresh)) == StatusBadRequest
  {
  }

  /** As written, the UniFi status of a refused snapshot is lost: any error, a 404 included, becomes 500. */
  lemma AsWrittenEveryErrorIs500(snap: UnifiSnapshot.Snapshot)
    requires snap.err.Some? && snap.written == []
    ensures FinalStatus(SnapshotAnswer(snap, IsHttpErrorAsWritten, Fresh)) == StatusInternalServerError
  {
  }

  lemma AsWritten404Becomes500(u: Url)
    ensures var snap := UnifiSnapshot.Snapshot(Some(Status(HttpError("404 Not Found", 404, u, "GET"))), []);
      FinalStatus(SnapshotAnswer(snap, IsHttpErrorAsWritten, Fresh)) == StatusInternalServerError
      && FinalStatus(SnapshotAnswer(snap, IsHttpErrorIntended, Fresh)) == 404
  {
  }

  /**
   * Intended: an HttpError is answered with its own status code, any other error with 500,
   * and success with 200 and the snapshot bytes.
   */
  lemma IntendedSnapshotStatus(vars: map<string, string>, c: UnifiClient.Client, transport: UnifiClient.Transport,
                               cancelledFirst: bool)
    requires "doorbellID" in vars
    ensures var snap := UnifiSnapshot.GetSnapshot(c, vars["doorbellID"], transport, cancelledFirst);
      var r := GetSnapshotAnswer(vars, c, transport, cancelledFirst, IsHttpErrorIntended, Fresh);
      && (snap.err.None? ==> FinalStatus(r) == StatusOK && (snap.written != [] ==> r.body == [Bytes(snap.written)]))
      && (snap.err.Some? && snap.err.value.Status? ==> FinalStatus(r) == snap.err.value.http.code && r.body == [])
      && (snap.err.Some? && !snap.err.value.Status? ==> FinalStatus(r) == StatusInternalServerError && r.body == [])
  {
  }

  /** What json.Decode leaves in setMessage's param: the fields present in the body, or a decode error. */
  datatype Decoded = DecodeFailed | Fields(doorbellID: Option<string>, message: Option<string>, durationSec: Option<uint64>)

  const DefaultDurationSec: uint64 := 30

  /** The param after decoding into the defaults {"", "", 30}. */
  datatype MessageParam = MessageParam(doorbellID: string, message: string, durationSec: uint64)

  function ParamOf(d: Decoded): (p: Option<MessageParam>)
    ensures p.None? <==> d.DecodeFailed?
    ensures d.Fields? ==> p.value.doorbellID == d.doorbellID.GetOr("") && p.value.message == d.message.GetOr("")
    ensures d.Fields? && d.durationSec.Some? ==> p.value.durationSec == d.durationSec.value
    ensures d.Fields? && d.durationSec.None? ==> p.value.durationSec == 30
  {
    match d
    case DecodeFailed => None
    case Fields(id, msg, sec) => Some(MessageParam(id.GetOr(""), msg.GetOr(""), sec.GetOr(DefaultDurationSec)))
  }

  /** time.Duration(sec) * time.Second: the uint64 converted to int64, then multiplied with int64 wrap-around. */
  function SecondsToDuration(sec: uint64): int64 {
    WrapInt64(WrapInt64(sec) * UnifiMessage.NanosPerSecond)
  }

  /** The largest number of seconds whose nanoseconds fit into an int64. */
  const MaxWholeSeconds := 9_223_372_036

  /** Up to MaxWholeSeconds, the payload carries exactly the requested seconds. */
  lemma DurationRoundTrip(sec: uint64)
    requires sec <= MaxWholeSeconds
    ensures UnifiMessage.PayloadDuration(SecondsToDuration(sec)) == sec
  {
    assert sec * UnifiMessage.NanosPerSecond < 0x8000_0000_0000_0000;
    UnifiMessage.PayloadDurationOfWholeSeconds(sec);
  }

  /** One second more wraps the duration negative, and the payload then carries a huge seconds count. */
  lemma DurationOverflow()
    ensures SecondsToDuration(MaxWholeSeconds + 1) == -9_223_372_036_709_551_616
    ensures UnifiMessage.PayloadDuration(SecondsToDuration(MaxWholeSeconds + 1)) == 18_446_744_064_486_179_580
  {
  }

  /** The specification of setMessage: 500 on a decode failure without calling SetMessage, else 500 or 201 by its outcome. */
  function SetMessageAnswer(decoded: Decoded, c: UnifiClient.Client, transport: UnifiClient.Transport,
                            cancelledFirst: bool, o: Output): Output
    reads c
  {
    match ParamOf(decoded)
    case None => WithStatus(o, StatusInternalServerError)
    case Some(p) =>
      var err := UnifiMessage.SetMessage(c, p.doorbellID, p.message, SecondsToDuration(p.durationSec), transport, cancelledFirst);
      if err.Some? then WithStatus(o, StatusInternalServerError) else WithStatus(o, StatusCreated)
  }

  method SetMessageHandler(decoded: Decoded, c: UnifiClient.Client, transport: UnifiClient.Transport,
                           cancelledFirst: bool, w: ResponseWriter)
    modifies w
    ensures w.output == SetMessageAnswer(decoded, c, transport, cancelledFirst, old(w.output))
  {
    var param := ParamOf(decoded);
    if param.None? {
      w.WriteHeader(StatusInternalServerError);
      return;
    }
    var p := param.value;
    var err := UnifiMessage.SetMessage(c, p.doorbellID, p.message, SecondsToDuration(p.durationSec), transport, cancelledFirst);
    if err.Some? {
      w.WriteHeader(StatusInternalServerError);
      return;
    }
    w.WriteHeader(StatusCreated);
  }

  /**
   * On a fresh response: 500 on a decode failure; otherwise 201 exactly when the PATCH for the
   * decoded doorbell, message and duration (30 s when absent) is answered below 300, else 500.
   */
  lemma SetMessageStatus(decoded: Decoded, c: UnifiClient.Client, transport: UnifiClient.Transport, cancelledFirst: bool)
    ensures var r := SetMessageAnswer(decoded, c, transport, cancelledFirst, Fresh);
      && r.body == []
      && (decoded.DecodeFailed? ==> FinalStatus(r) == StatusInternalServerError)
      && (decoded.Fields? ==>
            var p := ParamOf(decoded).value;
            var sent := UnifiMessage.MessageRequest(c.config, c.header, p.doorbellID, p.message, SecondsToDuration(p.durationSec));
            (FinalStatus(r) == StatusCreated <==> !cancelledFirst && transport(sent).Replied? && transport(sent).response.status < 300)
            && (FinalStatus(r) != StatusCreated ==> FinalStatus(r) == StatusInternalServerError))
  {
  }

  /** Without duration_sec in the body the doorbell shows the message for 30 seconds. */
  lemma DefaultDurationIsThirtySeconds(id: Option<string>, msg: Option<string>)
    ensures ParamOf(Fields(id, msg, None)).value.durationSec == 30
    ensures UnifiMessage.PayloadDuration(SecondsToDuration(ParamOf(Fields(id, msg, None)).value.durationSec)) == 30
  {
    DurationRoundTrip(30);
  }
}
