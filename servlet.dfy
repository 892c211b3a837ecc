/** The request and response as the dispatch engine sees them. The platform's
    HTTP framing is not modelled: a request is its path, its method, the names
    of the cookies it carries and its parsed URL query; a response records the
    `Set-Cookie` headers written to it. */
module Servlet {

  /** `url.Values`: every query key with the list of its values. */
  type QueryValues = map<string, seq<string>>

  datatype Request = Request(
    path: string,
    httpMethod: string,
    cookieNames: seq<string>,
    query: QueryValues)

  datatype SameSite = SameSiteDefaultMode | SameSiteLaxMode | SameSiteStrictMode | SameSiteNoneMode

  datatype Cookie = Cookie(
    name: string,
    value: string,
    path: string,
    maxAge: int,
    secure: bool,
    httpOnly: bool,
    sameSite: SameSite)

  /** A token character of RFC 7230 section 3.2.6: a letter, a digit or one
      of ``!#$%&'*+-.^_`|~``. */
  predicate IsTokenChar(c: char)
  {
    || 'a' <= c <= 'z' || 'A' <= c <= 'Z' || '0' <= c <= '9'
    || c in "!#$%&'*+-.^_`|~"
  }

  /** `net/http`'s cookie-name check: a non-empty token. A cookie whose name
      fails it serialises to the empty string. */
  predicate ValidCookieName(name: string)
  {
    name != [] && forall i :: 0 <= i < |name| ==> IsTokenChar(name[i])
  }

  /** The response writer, reduced to the headers the middlewares write. */
  class HttpResponse {
    var setCookies: seq<Cookie>

    constructor ()
      ensures setCookies == []
    {
      setCookies := [];
    }

    /** `http.SetCookie`: one more `Set-Cookie` header, after the earlier
        ones, unless the cookie serialises to nothing because its name is not
        a valid token, in which case nothing is written. */
    method SetCookie(cookie: Cookie)
      modifies this
      ensures ValidCookieName(cookie.name) ==> setCookies == old(setCookies) + [cookie]
      ensures !ValidCookieName(cookie.name) ==> setCookies == old(setCookies)
    {
      if ValidCookieName(cookie.name) {
        setCookies := setCookies + [cookie];
      }
    }
  }
}
