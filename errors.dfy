/** Errors returned by the client, one constructor per error site of the Go code.
    The Go code returns `error` values built from message strings; the model keeps
    the structure of each message and renders the text with `Message`. */
module Errors {
  import opened Strings

  datatype Option<+T> = None | Some(value: T)

  /** The result of an operation that can fail with an error of the client. */
  datatype Result<+T> = Ok(value: T) | Fail(error: Error)

  /** What a foreign parser (the XML decoder, `time.Parse`) gives back. */
  datatype Decoded<+T> = Parsed(value: T) | Malformed(cause: string)

  datatype Error =
    | BadRequest                         // a nil request reached Response or send
    | BadResponse                        // IsSuccess on a nil envelope
    | Transport(cause: string)           // a failure of net/http or of opening the upload file
    | TooManyRedirects                   // the redirect callback refused a hop
    | StatusNotIn(accepted: seq<nat>)    // the status is outside the accepted set
    | NotXml                             // Content-Type is not exactly application/xml
    | XmlFailed(cause: string)           // the XML decoder failed
    | TimeFailed(cause: string)          // a listing timestamp did not parse
    | BadBucket                          // an operation on a nil bucket
    | BadBucketPath                      // bucket.New found no non-blank segment
    | NoPath                             // the bucket has no object uri
    | DestBucket | DestNoPath            // copy: bad destination
    | SrcBucket | SrcNoPath              // copy: bad source
    | BadContentLength(value: string)    // Content-Length is not an integer
    | NegativeContentLength(n: int)      // Content-Length is a negative integer
    | BadLastModified(cause: string)     // Last-Modified did not parse
    | MissingHeader(name: string)        // a required HEAD header is absent
    | InfoFailed(inner: Error)           // Buckets wraps the error of Info
    | DeleteFailed(path: string, inner: Error)  // Clean wraps the error of one Del
    | OutOfFuel                          // the model's bound on an unbounded loop ran out

  /** The separator the status-set message puts between the accepted codes. */
  const StatusSep: char := '、'
  const StatusPrefix: string := "錯誤，狀態非 "

  /** The text of the message of `IsSuccess` for a rejected status. */
  function StatusMessage(accepted: seq<nat>): (m: string)
    ensures |m| >= |StatusPrefix| && m[..|StatusPrefix|] == StatusPrefix
    ensures Split(m[|StatusPrefix|..], StatusSep) == if accepted == [] then [""] else DecimalAll(accepted)
  {
    var body := Join(DecimalAll(accepted), StatusSep);
    assert (StatusPrefix + body)[|StatusPrefix|..] == body;
    if accepted == [] then StatusPrefix + body
    else
      DecimalAllFree(accepted, StatusSep);
      SplitJoin(DecimalAll(accepted), StatusSep);
      StatusPrefix + body
  }

  /** Decimal forms of a list of numbers, in order. */
  function DecimalAll(ns: seq<nat>): (r: seq<string>)
    ensures |r| == |ns|
    ensures forall i :: 0 <= i < |ns| ==> r[i] == Decimal(ns[i])
  {
    if ns == [] then [] else [Decimal(ns[0])] + DecimalAll(ns[1..])
  }

  lemma DecimalAllFree(ns: seq<nat>, c: char)
    requires !('0' <= c <= '9')
    ensures forall i :: 0 <= i < |ns| ==> c !in DecimalAll(ns)[i]
  {
    forall i | 0 <= i < |ns| ensures c !in DecimalAll(ns)[i] {
      DecimalDigits(ns[i]);
    }
  }
}
