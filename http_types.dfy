/** Values exchanged with the web framework: optional values and the
    cookie instructions the middleware leaves on a response. */
module HttpTypes {

  datatype Option<T> = None | Some(value: T)

  /** Python's `flag or None`: a true flag stays true, a false one becomes None,
      so the attribute is either set to true or absent, never set to false. */
  function OrNone(flag: bool): (r: Option<bool>)
    ensures r.Some? <==> flag
    ensures r != Some(false)
  {
    if flag then Some(true) else None
  }

  /** One call made on the response's cookie jar. `expires` is an absolute
      time in whole seconds; the HTTP-date text it would be rendered as is
      not modelled. */
  datatype CookieAction =
    | DeleteCookie(name: string, path: string, domain: string, sameSite: string)
    | SetCookie(name: string, value: string, maxAge: Option<int>, expires: Option<int>,
                domain: string, path: string, secure: Option<bool>, httpOnly: Option<bool>,
                sameSite: string)
}
