/**
 * Classification of an Immich HTTP response (`parseResponse`): the status code and
 * the presence of a body decide between doing nothing, decoding the body into the
 * caller's object, or returning an error built from the server's error envelope.
 * JSON decoding itself is a pair of decoder functions supplied by the caller.
 */
module ImmichResponse {
  import opened Wrappers
  import opened Text

  /** Raw response body bytes. */
  type Body = seq<bv8>

  /** The parts of a `*http.Response` that parseResponse reads: `StatusCode`, `Status` ("400 Bad Request"), `Body`. */
  datatype Response = Response(statusCode: int, status: string, body: Option<Body>)

  /** The server's error envelope `{"message": [...]}`. */
  datatype ServerResponse = ServerResponse(message: seq<string>)

  /** JSON decoding of a body, as the error envelope and as the caller's object type. */
  datatype Decoders<T> = Decoders(
    envelope: Body -> Result<ServerResponse, Error>,
    target: Body -> Result<T, Error>)

  /**
   * The effect of parseResponse: `Untouched` (nil error, the object is not written),
   * `Decoded(v)` (nil error, `v` written into the object) or `Failed(e)` (error `e`).
   */
  datatype Parsed<T> = Untouched | Decoded(value: T) | Failed(error: Error)

  const StatusNoContent: int := 204
  /** The lowest status code that parseResponse treats as an error. */
  const FirstErrorStatus: int := 400

  /** The error text built from a decoded error envelope: `"<Status>: [m1 m2 ...]"`. */
  function ServerErrorText(status: string, messages: seq<string>): string {
    status + ": " + FormatList(messages)
  }

  function ParseResponse<T>(resp: Option<Response>, dec: Decoders<T>): (p: Parsed<T>)
    ensures p.Failed? <==>
              resp.Some? && resp.value.body.Some? &&
              (resp.value.statusCode >= FirstErrorStatus ||
               (resp.value.statusCode != StatusNoContent && dec.target(resp.value.body.value).Failure?))
    ensures p.Decoded? ==>
              resp.Some? && resp.value.body.Some? &&
              resp.value.statusCode < FirstErrorStatus && resp.value.statusCode != StatusNoContent &&
              dec.target(resp.value.body.value) == Success(p.value)
  {
    if resp.None? then Untouched
    else
      var r := resp.value;
      if r.statusCode >= FirstErrorStatus && r.body.Some? then
        match dec.envelope(r.body.value)
        case Failure(e) => Failed("can't decode server error: " + e)
        case Success(sr) => Failed(ServerErrorText(r.status, sr.message))
      else if r.body.Some? then
        if r.statusCode == StatusNoContent then Untouched
        else
          match dec.target(r.body.value)
          case Failure(e) => Failed(e)
          case Success(v) => Decoded(v)
      else Untouched
  }

  /** No response: nil error and the object is left alone. */
  lemma NilResponseUntouched<T>(dec: Decoders<T>)
    ensures ParseResponse(None, dec) == Untouched
  {
  }

  /**
   * An error status with a body always fails: with the decoder's error when the
   * envelope cannot be decoded, otherwise with the status line followed by the
   * message list, so that each server message appears in the error text.
   */
  lemma ErrorStatusWithBodyFails<T>(r: Response, dec: Decoders<T>)
    requires r.statusCode >= FirstErrorStatus && r.body.Some?
    ensures ParseResponse(Some(r), dec).Failed?
    ensures dec.envelope(r.body.value).Failure? ==>
              ParseResponse(Some(r), dec).error
                == "can't decode server error: " + dec.envelope(r.body.value).error
    ensures dec.envelope(r.body.value).Success? ==>
              var messages := dec.envelope(r.body.value).value.message;
              ParseResponse(Some(r), dec).error == ServerErrorText(r.status, messages) &&
              forall k :: 0 <= k < |messages| ==> Contains(ParseResponse(Some(r), dec).error, messages[k])
  {
    if dec.envelope(r.body.value).Success? {
      var messages := dec.envelope(r.body.value).value.message;
      forall k | 0 <= k < |messages|
        ensures Contains(ServerErrorText(r.status, messages), messages[k])
      {
        FormatListContainsItem(messages, k);
        ContainsInSuffix(r.status + ": ", FormatList(messages), messages[k]);
      }
    }
  }

  /** An error status without a body falls through to the nil-body path: nil error. */
  lemma ErrorStatusWithoutBodyUntouched<T>(r: Response, dec: Decoders<T>)
    requires r.statusCode >= FirstErrorStatus && r.body.None?
    ensures ParseResponse(Some(r), dec) == Untouched
  {
  }

  /** 204 No Content with a body: nil error and the body is not decoded. */
  lemma NoContentNotDecoded<T>(r: Response, dec: Decoders<T>)
    requires r.statusCode == StatusNoContent && r.body.Some?
    ensures ParseResponse(Some(r), dec) == Untouched
  {
  }

  /** Any other status below 400 with a body returns exactly the object decoder's outcome. */
  lemma SuccessStatusDecodes<T>(r: Response, dec: Decoders<T>)
    requires r.statusCode < FirstErrorStatus && r.statusCode != StatusNoContent && r.body.Some?
    ensures dec.target(r.body.value).Success? ==>
              ParseResponse(Some(r), dec) == Decoded(dec.target(r.body.value).value)
    ensures dec.target(r.body.value).Failure? ==>
              ParseResponse(Some(r), dec) == Failed(dec.target(r.body.value).error)
  {
  }

  /**
   * The error-status test comes first: for a status of 400 or more the object
   * decoder is never consulted, whatever it would return.
   */
  lemma ErrorStatusIgnoresObjectDecoder<T>(r: Response, dec: Decoders<T>, other: Body -> Result<T, Error>)
    requires r.statusCode >= FirstErrorStatus
    ensures ParseResponse(Some(r), dec) == ParseResponse(Some(r), dec.(target := other))
  {
  }
}
