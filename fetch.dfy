/** The resource fetcher: how `get` turns the outcome of one HTTP exchange
    into a body or an error, and how `getIcs` builds the URL of each child
    calendar from the configured index URL. The exchange itself (request
    construction, Basic-Auth, the transport, reading the body) is I/O and
    enters the model only through its outcome. */
module Fetch {
  import opened Wrappers

  newtype byte = x: int | 0 <= x < 256

  /** The part of Go's `url.URL` the core touches. */
  datatype Url = Url(scheme: string, user: Option<string>, host: string,
                     path: string, rawQuery: string, fragment: string)

  /** What one exchange of `get` came to, in the order `get` finds out. */
  datatype Exchange =
    | RequestUnbuildable                                  // NewRequestWithContext failed
    | TransportFailed                                     // Client.Do failed
    | Answered(status: int, body: Option<seq<byte>>)      // body None: reading it failed

  datatype GetError = BuildRequest | DoRequest | BadStatus(code: int) | ReadBody

  /** The status test of `get`: anything below 200 or from 300 on is an
      error, so exactly the 2xx codes pass. */
  predicate StatusOk(code: int)
    ensures StatusOk(code) <==> 200 <= code <= 299
  {
    !(code < 200 || code >= 300)
  }

  /** `get`: a body comes back exactly when the request was built, sent,
      answered with a 2xx status, and its body read; otherwise the first
      failing step names the error, and a non-2xx answer is reported with
      its status whatever its body. */
  function Get(x: Exchange): (r: Result<seq<byte>, GetError>)
    ensures r.Ok? <==> x.Answered? && 200 <= x.status < 300 && x.body.Some?
    ensures r.Ok? ==> r.value == x.body.value
    ensures x.RequestUnbuildable? ==> r == Err(BuildRequest)
    ensures x.TransportFailed? ==> r == Err(DoRequest)
    ensures x.Answered? && !(200 <= x.status < 300) ==> r == Err(BadStatus(x.status))
    ensures x.Answered? && 200 <= x.status < 300 && x.body.None? ==> r == Err(ReadBody)
  {
    match x
    case RequestUnbuildable => Err(BuildRequest)
    case TransportFailed => Err(DoRequest)
    case Answered(status, body) =>
      if !StatusOk(status) then Err(BadStatus(status))
      else if body.None? then Err(ReadBody)
      else Ok(body.value)
  }

  /** The URL of one child calendar: the index URL's scheme and host, the
      locator as the path, and nothing else of the index URL. */
  function ResourceUrl(index: Url, locator: string): (u: Url)
    ensures u.scheme == index.scheme && u.host == index.host && u.path == locator
    ensures u.user.None? && u.rawQuery == "" && u.fragment == ""
  {
    Url(index.scheme, None, index.host, locator, "", "")
  }

  /** Only the scheme and host of the index URL matter: its credentials,
      path, query and fragment never reach a resource URL. */
  lemma ResourceUrlAuthorityOnly(a: Url, b: Url, locator: string)
    requires a.scheme == b.scheme && a.host == b.host
    ensures ResourceUrl(a, locator) == ResourceUrl(b, locator)
  {
  }

  /** Distinct locators give distinct `Url` values. (Their rendered forms
      can still coincide; see the README.) */
  lemma ResourceUrlInjective(index: Url, l1: string, l2: string)
    requires ResourceUrl(index, l1) == ResourceUrl(index, l2)
    ensures l1 == l2
  {
  }
}
