/**
 * The route guard run before "/" and "/dashboard": a signed-in visitor of
 * the landing page is sent to the dashboard, an anonymous visitor of the
 * dashboard is sent to the landing page, and everything else passes.
 */
module Middleware {
  import opened Wrappers

  /** The parts of an incoming request the guard reads: the session token
      decoded by the authentication layer (if any) and the URL's path. */
  datatype Request<Jwt> = Request(token: Option<Jwt>, pathname: string)

  /** What the guard answers: continue to the page, redirect to a path on
      the request's own origin, or send the visitor to the authentication
      layer's sign-in page (what the wrapper does when `authorized` refuses). */
  datatype Response = Next | Redirect(location: string) | SignIn

  /** The paths the guard is configured to run on. */
  const Matcher: seq<string> := ["/", "/dashboard"]

  /** The inner `middleware(req)` decision. */
  function Middleware<Jwt>(req: Request<Jwt>): (r: Response)
    ensures r == Redirect("/dashboard") <==> req.pathname == "/" && req.token.Some?
    ensures r == Redirect("/") <==> req.pathname == "/dashboard" && req.token.None?
    ensures r.Next? <==> !(req.pathname == "/" && req.token.Some?)
                         && !(req.pathname == "/dashboard" && req.token.None?)
  {
    var isAuth := req.token.Some?;
    var isAuthPage := req.pathname == "/";
    var isDashboardPage := req.pathname == "/dashboard";
    if isAuthPage then
      if isAuth then Redirect("/dashboard") else Next
    else if isDashboardPage then
      if !isAuth then Redirect("/") else Next
    else
      Next
  }

  /** The `authorized` callback: every request is let through to the inner
      decision, with or without a token. */
  function Authorized<Jwt>(token: Option<Jwt>): (ok: bool)
    ensures ok
  {
    true
  }

  /** The guard as deployed: a path outside the matcher goes on untouched;
      on a matched path a request `Authorized` refuses is sent to sign in,
      and any other reaches the inner decision. */
  function Guard<Jwt>(req: Request<Jwt>): (r: Response)
    ensures req.pathname !in Matcher ==> r == Next
    ensures r == SignIn <==> req.pathname in Matcher && !Authorized(req.token)
    ensures req.pathname in Matcher && Authorized(req.token) ==> r == Middleware(req)
  {
    if req.pathname !in Matcher then Next
    else if !Authorized(req.token) then SignIn
    else Middleware(req)
  }

  /** Restricting the guard to the matched paths changes no answer: every
      path the matcher leaves out passes through the inner decision too. */
  lemma GuardIsMiddleware<Jwt>(req: Request<Jwt>)
    ensures Guard(req) == Middleware(req)
    ensures req.pathname !in Matcher ==> Guard(req) == Next
  {
  }
}
