/**
 * The axios response interceptor of the frontend API client
 * (frontend/src/api/client.js): successes pass through; every failure is
 * rejected, and a 401 met away from the public pages first remembers where the
 * user was and sends the browser to the login page.
 */
module ApiClient {
  import opened Wrappers
  import opened GoStrings

  /** A response the server sent. */
  datatype Response = Response(status: int, body: string)

  /** An axios error: with the server's response, or a network error without one. */
  datatype Failure = NetworkError(message: string) | HttpError(response: Response)

  /** The parts of the browser the interceptor touches: the location and `sessionStorage`. */
  datatype Browser = Browser(pathname: string, href: string, session: map<string, string>)

  /** What the caller's promise settles to. */
  datatype Settled = Resolved(response: Response) | Rejected(failure: Failure)

  const LoginPage := "/login"

  const RedirectKey := "redirectAfterLogin"

  /** The paths a 401 does not redirect away from: '/', '/login', and everything under '/login'. */
  predicate IsPublic(path: string) {
    path in ["/", "/login"] || HasPrefix(path, "/login")
  }

  /** A settled promise, the browser afterwards, and whether the handler navigated. */
  datatype Handled = Handled(settled: Settled, browser: Browser, navigated: bool)

  /** The success handler: the response unchanged, the browser untouched. */
  function OnResponse(b: Browser, response: Response): (r: Handled)
    ensures r.settled == Resolved(response) && r.browser == b && !r.navigated
  {
    Handled(Resolved(response), b, false)
  }

  /** The error handler. */
  function OnError(b: Browser, failure: Failure): (r: Handled)
    ensures r.settled == Rejected(failure)
    ensures r.navigated <==> failure.HttpError? && failure.response.status == 401 && !IsPublic(b.pathname)
    ensures r.navigated ==> r.browser == Browser(b.pathname, LoginPage, b.session[RedirectKey := b.pathname])
    ensures !r.navigated ==> r.browser == b
  {
    match failure
    case NetworkError(_) => Handled(Rejected(failure), b, false)
    case HttpError(response) =>
      if response.status == 401 && !(b.pathname in ["/", "/login"]) && !HasPrefix(b.pathname, "/login") then
        Handled(Rejected(failure), Browser(b.pathname, LoginPage, b.session[RedirectKey := b.pathname]), true)
      else
        Handled(Rejected(failure), b, false)
  }

  /** A 401 outside the public pages is remembered and leaves for the login page, from any page. */
  lemma UnauthorizedLeavesForLogin(b: Browser, response: Response)
    requires response.status == 401 && !IsPublic(b.pathname)
    ensures OnError(b, HttpError(response)).browser.href == LoginPage
    ensures OnError(b, HttpError(response)).browser.session[RedirectKey] == b.pathname
  {
  }

  /**
   * Redirecting is settled after one step: on the login page a further 401 does
   * nothing more, so the interceptor never loops and never overwrites the saved
   * path with the login page itself.
   */
  lemma RedirectSettles(b: Browser, response: Response, again: Response)
    requires response.status == 401
    ensures var b' := OnError(b, HttpError(response)).browser;
            var arrived := Browser(LoginPage, b'.href, b'.session);
            !OnError(arrived, HttpError(again)).navigated
  {
  }

  /** No failure other than a 401 changes the browser. */
  lemma OnlyUnauthorizedRedirects(b: Browser, failure: Failure)
    requires !(failure.HttpError? && failure.response.status == 401)
    ensures OnError(b, failure) == Handled(Rejected(failure), b, false)
  {
  }
}
