/** The errors the modelled code creates, wraps and inspects, and their texts. */
module Errors {
  import opened Net
  import Decimal

  /** unifi.HttpError: a response whose status code is 300 or more. */
  datatype HttpError = HttpError(message: string, code: int, url: Url, verb: string)

  datatype Error =
    | Failure(text: string)                   // errors.New, or a collaborator's error with its text
    | Wrapped(context: string, cause: Error)  // xerrors.Errorf("context: %w"), errors.Wrap, errors.WithMessage
    | Status(http: HttpError)                 // a *unifi.HttpError
    | Canceled                                // context.Canceled

  datatype Result<+T> = Ok(value: T) | Err(error: Error)

  /** HttpError.Error(): "message: %s. code: %d. url: %s". */
  function HttpErrorText(e: HttpError): string {
    "message: " + e.message + ". code: " + Decimal.IntToDecimal(e.code) + ". url: " + UrlString(e.url)
  }

  /** err.Error() for the whole chain; errors.WithStack adds no text and is not represented. */
  function ErrorText(e: Error): string {
    match e
    case Failure(t) => t
    case Wrapped(c, cause) => c + ": " + ErrorText(cause)
    case Status(h) => HttpErrorText(h)
    case Canceled => "context canceled"
  }

  /** The text of an HttpError determines its status code, given its message and URL. */
  lemma HttpErrorTextDeterminesCode(a: HttpError, b: HttpError)
    requires a.message == b.message && a.url == b.url
    requires HttpErrorText(a) == HttpErrorText(b)
    ensures a.code == b.code
  {
    var p := "message: " + a.message + ". code: ";
    var s := ". url: " + UrlString(a.url);
    var da, db := Decimal.IntToDecimal(a.code), Decimal.IntToDecimal(b.code);
    assert HttpErrorText(a) == p + da + s;
    assert HttpErrorText(b) == p + db + s;
    assert |da| == |db|;
    assert da == (p + da + s)[|p|..|p| + |da|];
    assert db == (p + db + s)[|p|..|p| + |db|];
    Decimal.IntToDecimalInjective(a.code, b.code);
  }
}
