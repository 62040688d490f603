/** The basic connectivity check: one HTTP request to the base URL, whose
    outcome is mapped to a (success, status, response time) triple. The
    request itself is not modelled; its outcome is an input. */
module Http {
  import opened Strings

  /** How one request to the base URL ended. `text` is the exception's
      message `str(e)`; `elapsed` is the seconds between starting the
      request and receiving the answer. */
  datatype Fetch =
    | Response(status: int, elapsed: real, body: string, contentType: Option<string>)
    | HttpError(code: int, elapsed: real, text: string)
    | UrlError(text: string)
    | OtherError(text: string)

  /** The result triple of the connectivity check. */
  datatype Connectivity = Connectivity(success: bool, status: string, responseTime: real)

  /** Any answer from the server, even an HTTP error status, counts as
      connectivity; the status code is reported as its decimal text, which
      is canonical and reads back as the code, so by `NumeralUnique` it is
      exactly `str(code)`. A
      URL error mentioning "timeout" (in any case) is reported as TIMEOUT;
      other failures carry their message and no response time. */
  function CheckConnectivity(f: Fetch): (c: Connectivity)
    ensures c.success <==> f.Response? || f.HttpError?
    ensures f.Response? ==> ParseInt(c.status) == Some(f.status) && c.responseTime == f.elapsed
    ensures f.HttpError? ==> ParseInt(c.status) == Some(f.code) && c.responseTime == f.elapsed
    ensures c.success ==> CanonicalNumeral(c.status)
    ensures f.UrlError? && OccursIgnoringCase(f.text, "timeout") ==> c.status == "TIMEOUT"
    ensures f.UrlError? && !OccursIgnoringCase(f.text, "timeout") ==> c.status == "URL_ERROR: " + f.text
    ensures f.OtherError? ==> c.status == "REQUEST_ERROR: " + f.text
    ensures !c.success ==> c.responseTime == 0.0
  {
    match f
    case Response(status, elapsed, _, _) =>
      IntRoundTrip(status);
      Connectivity(true, IntToString(status), elapsed)
    case HttpError(code, elapsed, _) =>
      IntRoundTrip(code);
      Connectivity(true, IntToString(code), elapsed)
    case UrlError(text) =>
      LowerOccurs(text, "timeout");
      if Contains(Lower(text), "timeout") then Connectivity(false, "TIMEOUT", 0.0)
      else Connectivity(false, "URL_ERROR: " + text, 0.0)
    case OtherError(text) =>
      Connectivity(false, "REQUEST_ERROR: " + text, 0.0)
  }

  /** The status text alone tells success from failure: it is a numeral
      exactly when the check succeeded. */
  lemma StatusIsNumeralIffSuccess(f: Fetch)
    ensures ParseInt(CheckConnectivity(f).status).Some? <==> CheckConnectivity(f).success
  {
    var c := CheckConnectivity(f);
    if !c.success {
      assert c.status[0] in {'T', 'U', 'R'};
      NotANumeral(c.status);
    }
  }
}
