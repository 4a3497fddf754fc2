/**
 * The part of net/http's ResponseWriter the handlers use: header edits, WriteHeader and Write.
 * What a handler has produced so far is an Output value; the writer holds it and updates it.
 */
module HttpWriter {
  import opened Options
  import opened Net

  /** A piece of response body. JSON encodings and file contents are named, not encoded. */
  datatype Chunk =
    | Bytes(bytes: seq<byte>)             // raw bytes, such as a file read whole or a copied body
    | Text(text: string)                  // text written as it is
    | TemplatesJson(templates: seq<string>) // json encoding of {"templates": ...}
    | StaticFile(path: string)            // what http.FileServer writes for the path

  /** The headers, the status once written (None: not yet), and the body so far. */
  datatype Output = Output(header: Header, status: Option<int>, body: seq<Chunk>)

  const Fresh := Output(map[], None, [])

  /** An http.Handler, by what its ServeHTTP adds to the response written so far. */
  type Handler = Output -> Output

  const StatusOK := 200
  const StatusCreated := 201
  const StatusBadRequest := 400
  const StatusNotFound := 404
  const StatusInternalServerError := 500

  /** WriteHeader: the first call sets the status; a later one is superfluous and ignored. */
  function WithStatus(o: Output, code: int): (r: Output)
    ensures r.header == o.header && r.body == o.body
    ensures r.status == Some(o.status.GetOr(code))
  {
    if o.status.Some? then o else o.(status := Some(code))
  }

  /** Write: an unwritten status becomes 200 first, then the chunk is appended. */
  function WithChunk(o: Output, c: Chunk): (r: Output)
    ensures r.header == o.header && r.body == o.body + [c]
    ensures r.status == Some(o.status.GetOr(StatusOK))
  {
    WithStatus(o, StatusOK).(body := o.body + [c])
  }

  /** The status the client receives: 200 when the handler wrote none. */
  function FinalStatus(o: Output): int {
    o.status.GetOr(StatusOK)
  }

  /** Once a status is written, later WriteHeader and Write calls do not change it. */
  lemma StatusIsWrittenOnce(o: Output, code: int, c: Chunk)
    requires o.status.Some?
    ensures FinalStatus(WithStatus(o, code)) == FinalStatus(o)
    ensures FinalStatus(WithChunk(o, c)) == FinalStatus(o)
  {
  }

  class ResponseWriter {
    var output: Output

    constructor ()
      ensures output == Fresh
    {
      output := Fresh;
    }

    /** w.Header().Set */
    method SetHeader(key: string, value: string)
      modifies this
      ensures output == old(output).(header := HeaderSet(old(output).header, key, value))
    {
      output := output.(header := HeaderSet(output.header, key, value));
    }

    /** w.Header().Add */
    method AddHeader(key: string, value: string)
      modifies this
      ensures output == old(output).(header := HeaderAdd(old(output).header, key, value))
    {
      output := output.(header := HeaderAdd(output.header, key, value));
    }

    /** w.WriteHeader */
    method WriteHeader(code: int)
      modifies this
      ensures output == WithStatus(old(output), code)
    {
      if output.status.None? {
        output := output.(status := Some(code));
      }
    }

    /** w.Write */
    method Write(c: Chunk)
      modifies this
      ensures output == WithChunk(old(output), c)
    {
      WriteHeader(StatusOK);
      output := output.(body := output.body + [c]);
    }

    /** next.ServeHTTP(w, r) */
    method Serve(next: Handler)
      modifies this
      ensures output == next(old(output))
    {
      output := next(output);
    }
  }
}
