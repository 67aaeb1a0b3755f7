/**
 The two routes registered on the Express application itself (browserApi.ts):
 `GET /api`, which reports `health()`, and `POST /api/init`, which maps the
 reply of `init` to an HTTP status.
 */
module Routes {
  import opened Session

  /** The JSON bodies the two routes send. */
  datatype RouteBody =
    | ServiceStatus(status: string, service: string)   // `{status, service: "browserApi"}`
    | ServiceError(status: string, message: string)    // `{status: "error", message}`

  datatype RouteReply = RouteReply(code: int, body: RouteBody)

  const Service := "browserApi"

  /** `GET /api`: 200 exactly when `health()` is healthy; the body names the service either way. */
  function HealthRoute(s: Session): (r: RouteReply)
    ensures r.code == 200 <==> s.initialized && s.page.Some? && !s.page.value.closed
    ensures r.code != 200 ==> r == RouteReply(500, ServiceStatus("unhealthy", Service))
    ensures r.code == 200 ==> r.body == ServiceStatus("healthy", Service)
  {
    if Health(s) == Healthy then
      RouteReply(200, ServiceStatus("healthy", Service))
    else
      RouteReply(500, ServiceStatus("unhealthy", Service))
  }

  /**
   `POST /api/init`: 200 for the statuses "initialized" and "healthy", 500 with
   `init`'s message otherwise. The success body does not carry `init`'s message.
   */
  function InitRoute(reply: StatusReply): (r: RouteReply)
    ensures r.code == 200 <==> reply.status == "initialized" || reply.status == "healthy"
    ensures r.code == 200 ==> r.body == ServiceStatus("healthy", Service)
    ensures r.code != 200 ==> r == RouteReply(500, ServiceError("error", reply.message))
  {
    if reply.status == "initialized" || reply.status == "healthy" then
      RouteReply(200, ServiceStatus("healthy", Service))
    else
      RouteReply(500, ServiceError("error", reply.message))
  }

  /**
   `POST /api/init` succeeds exactly when the browser was already initialized or
   the launch went through; `init` never answers "initialized", so that arm of
   the route's test is dead.
   */
  lemma InitRouteOkIffLaunched(s: Session, l: Launch, h: Nav, t: Nav)
    ensures Init(s, l, h, t).reply.status != "initialized"
    ensures InitRoute(Init(s, l, h, t).reply).code == 200 <==> s.initialized || l.Launched?
  {
  }

  /**
   A failed connectivity probe never reaches the client: the degraded launch
   and the clean one produce the same route reply.
   */
  lemma DegradedLaunchLooksHealthy(s: Session, h1: Nav, t1: Nav, h2: Nav, t2: Nav)
    ensures InitRoute(Init(s, Launched, h1, t1).reply) == InitRoute(Init(s, Launched, h2, t2).reply)
    ensures InitRoute(Init(s, Launched, h1, t1).reply) == RouteReply(200, ServiceStatus("healthy", Service))
  {
  }

  /**
   Right after a successful launch (`FreshPage` is open) `GET /api` is healthy;
   after a failed one, or after either crash listener, it is not.
   */
  lemma HealthRouteAfterInit(s: Session, l: Launch, h: Nav, t: Nav, e: Crash)
    requires !s.initialized
    ensures HealthRoute(Init(s, l, h, t).session).code == 200 <==> l.Launched?
    ensures HealthRoute(OnCrash(Init(s, l, h, t).session, e)).code == 500
  {
  }
}
