/** The cookie session a request carries. The signing and encoding of the
    cookie are not modelled: a session is the mapping of slot names to values
    that the cookie decodes to, and Save either writes it to the response or
    reports the error it met. */
module Sessions {
  import opened Types

  type Values = map<GoString, seq<byte>>

  class Session {
    /** The session's named values for this request. */
    var values: Values
    /** What the response's cookie carries after a successful Save; None while
        nothing has been saved during this request. */
    var saved: Option<Values>

    /** Open the session named by the cookie key: the decoded cookie's values,
        or a fresh empty session when the request has no valid cookie. */
    constructor Open(decoded: Option<Values>)
      ensures values == (if decoded.Some? then decoded.value else map[])
      ensures saved == None
    {
      values := if decoded.Some? then decoded.value else map[];
      saved := None;
    }

    /** Write the session into the response; `saveErr` is the error the
        encoding or the response write reports, if any. */
    method Save(saveErr: Option<Error>) returns (err: Option<Error>)
      modifies this
      ensures err == saveErr
      ensures values == old(values)
      ensures saved == if saveErr.None? then Some(values) else old(saved)
    {
      err := saveErr;
      if saveErr.None? {
        saved := Some(values);
      }
    }
  }
}
