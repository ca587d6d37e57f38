/** The response envelope of request/response/response.go: the status, the body as
    bytes and as text, the recorded error and the first-value header map of one HTTP
    exchange, with the status-set acceptance check. */
module Response {
  import opened Errors

  type Byte = b: int | 0 <= b < 256

  /** The fields of an envelope as a value. */
  datatype Envelope = Envelope(
    status: nat,
    bodyBytes: seq<Byte>,
    bodyString: string,
    error: Option<Error>,
    headers: map<string, string>)

  /** What `New` and `Reset` leave behind. */
  const Cleared: Envelope := Envelope(0, [], "", None, map[])

  /** The status codes `IsSuccess` accepts: the first caller-given set, or `{200}`. */
  function AcceptedSet(statuss: seq<seq<nat>>): (s: seq<nat>)
    ensures statuss == [] ==> s == [200]
    ensures statuss != [] ==> s == statuss[0]
  {
    if |statuss| > 0 then statuss[0] else [200]
  }

  /** The verdict of `IsSuccess` on an envelope (`None` for a nil envelope). */
  function Verdict(env: Option<Envelope>, statuss: seq<seq<nat>>): Option<Error> {
    match env
    case None => Some(BadResponse)
    case Some(e) =>
      if e.error.Some? then e.error
      else if e.status in AcceptedSet(statuss) then None
      else Some(StatusNotIn(AcceptedSet(statuss)))
  }

  /** A recorded error is returned verbatim, whatever the status and the accepted set. */
  lemma ErrorTakesPrecedence(env: Envelope, statuss: seq<seq<nat>>)
    requires env.error.Some?
    ensures Verdict(Some(env), statuss) == env.error
  {
  }

  /** Success exactly when no error is recorded and the status is accepted. */
  lemma SuccessIff(env: Envelope, statuss: seq<seq<nat>>)
    ensures Verdict(Some(env), statuss) == None <==> env.error.None? && env.status in AcceptedSet(statuss)
    ensures Verdict(Some(env), statuss) != None ==>
      Verdict(Some(env), statuss) == env.error || Verdict(Some(env), statuss) == Some(StatusNotIn(AcceptedSet(statuss)))
  {
  }

  /** A nil envelope always yields an error. */
  lemma NilEnvelopeFails(statuss: seq<seq<nat>>)
    ensures Verdict(None, statuss) == Some(BadResponse)
  {
  }

  /** 204 is accepted with `{200, 204}` and rejected with the default set. */
  lemma NoContentNeedsExplicitSet(env: Envelope)
    requires env.error.None? && env.status == 204
    ensures Verdict(Some(env), [[200, 204]]) == None
    ensures Verdict(Some(env), []) == Some(StatusNotIn([200]))
  {
  }

  /** The first-value collapse of a multi-valued header map. */
  function Collapse(raw: map<string, seq<string>>): (h: map<string, string>)
    ensures forall k :: k in h <==> k in raw && |raw[k]| > 0
    ensures forall k :: k in h ==> h[k] == raw[k][0]
  {
    map k | k in raw && |raw[k]| > 0 :: raw[k][0]
  }

  class Response {
    var statusCode: nat
    var bodyBytes: seq<Byte>
    var bodyString: string
    var error: Option<Error>
    var headers: map<string, string>

    function Snapshot(): Envelope
      reads this
    {
      Envelope(statusCode, bodyBytes, bodyString, error, headers)
    }

    /** `New`: a cleared envelope. */
    constructor ()
      ensures Snapshot() == Cleared
    {
      statusCode, bodyBytes, bodyString, error, headers := 0, [], "", None, map[];
    }

    /** `Reset`: every field back to its cleared value, so a second reset changes nothing. */
    method Reset()
      modifies this
      ensures Snapshot() == Cleared
    {
      statusCode := 0;
      bodyBytes := [];
      bodyString := "";
      error := None;
      headers := map[];
    }

    /** `GG`: records the error and leaves status, body and headers as they were. */
    method GG(err: Error)
      modifies this`error
      ensures Snapshot() == old(Snapshot()).(error := Some(err))
    {
      error := Some(err);
    }

    /** `GG` on a nil envelope makes a fresh one that holds only the error. */
    static method GGNil(err: Error) returns (r: Response)
      ensures fresh(r)
      ensures r.Snapshot() == Cleared.(error := Some(err))
    {
      r := new Response();
      r.GG(err);
    }

    /** The part of `send` that copies one HTTP answer into the envelope: the status cut
        to 16 bits, the first value of every non-empty header, the body bytes and text. */
    method Record(status: int, raw: map<string, seq<string>>, body: seq<Byte>, text: string)
      modifies this
      ensures statusCode == status % 0x1_0000
      ensures headers == old(headers) + Collapse(raw)
      ensures bodyBytes == body && bodyString == text && error == old(error)
    {
      statusCode := status % 0x1_0000;
      var h := headers;
      var todo := raw.Keys;
      ghost var done: set<string> := {};
      while todo != {}
        invariant todo + done == raw.Keys && todo !! done
        invariant h == old(headers) + map k | k in done && |raw[k]| > 0 :: raw[k][0]
        decreases todo
      {
        var key :| key in todo;
        if |raw[key]| > 0 {
          h := h[key := raw[key][0]];
        }
        todo := todo - {key};
        done := done + {key};
      }
      headers := h;
      bodyBytes := body;
      bodyString := text;
    }

    /** `IsSuccess`: the recorded error first, then a scan of the accepted set. */
    method IsSuccess(statuss: seq<seq<nat>>) returns (e: Option<Error>)
      ensures e == Verdict(Some(Snapshot()), statuss)
    {
      if error.Some? {
        return error;
      }
      var status := if |statuss| > 0 then statuss[0] else [200];
      var i := 0;
      while i < |status|
        invariant 0 <= i <= |status|
        invariant statusCode !in status[..i]
      {
        if statusCode == status[i] {
          return None;
        }
        i := i + 1;
      }
      assert status[..i] == status;
      e := Some(StatusNotIn(status));
    }
  }
}
