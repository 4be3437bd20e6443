/** What the servlets see of HTTP: request parameters and the one thing each
    handler ends in. Dispatching to a JSP, writing a redirect and sending an
    error are effects of the container; the model keeps only which of them
    happens and with what target or message. */
module Http {
  import opened Base

  /** `req.getParameter(name)`: null when the request does not carry it. */
  type Param = JString

  /** The test every handler applies: not null and not empty. */
  predicate Present(p: Param) {
    p.Some? && p.value != []
  }

  /** `Long.valueOf(p)` / `Long.parseLong(p)` of a parameter; `None` is the
      NumberFormatException, which a null parameter raises too. */
  function ParseParam(p: Param): (r: Option<int>)
    ensures r.Some? ==> p.Some? && p.value != [] && IsLong(r.value)
  {
    if p.None? then None else ParseLong(p.value)
  }

  /** How a handler ends. */
  datatype Response =
    | Forward(page: string)                     // forward to a JSP
    | Redirect(location: string)                // sendRedirect(location)
    | NotFound(message: Option<string>)         // sendError(404[, message])
    | Thrown(failure: Failure)                  // an exception leaves the handler
    | NotFoundThenThrown(sent: string, failure: Failure)  // sendError(404, sent), then an exception

  /** A canonical decimal parameter parses back to its number. */
  lemma ParseParamOfLong(n: int)
    requires IsLong(n)
    ensures ParseParam(Some(LongToString(n))) == Some(n)
    ensures Present(Some(LongToString(n)))
  {
    ParseLongRoundTrip(n);
  }
}
