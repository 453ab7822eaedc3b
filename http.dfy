/** The part of an Express response object the handlers use: the status
    code, the cookies set and the JSON body sent. */
module Http {
  import opened Wrappers

  datatype CookieOptions = CookieOptions(httpOnly: bool, secure: bool, sameSite: string)

  datatype Cookie = Cookie(name: string, value: string, options: CookieOptions)

  /** `ApiError(statusCode, message)`, the error class the server throws. */
  datatype ApiError = ApiError(statusCode: int, message: string)

  class Response<B> {
    var status: int
    var cookies: seq<Cookie>
    var body: Option<B>

    /** A fresh response: Express starts every response at 200. */
    constructor ()
      ensures status == 200 && cookies == [] && body == None
    {
      status := 200;
      cookies := [];
      body := None;
    }

    /** `res.status(code)` */
    method Status(code: int)
      modifies this
      ensures status == code && cookies == old(cookies) && body == old(body)
    {
      status := code;
    }

    /** `res.cookie(name, value, options)` */
    method SetCookie(name: string, value: string, options: CookieOptions)
      modifies this
      ensures cookies == old(cookies) + [Cookie(name, value, options)]
      ensures status == old(status) && body == old(body)
    {
      cookies := cookies + [Cookie(name, value, options)];
    }

    /** `res.json(b)` */
    method Json(b: B)
      modifies this
      ensures body == Some(b)
      ensures status == old(status) && cookies == old(cookies)
    {
      body := Some(b);
    }
  }
}
