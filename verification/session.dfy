/**
 The session state machine of `BrowserAutomation` (browserApi.ts): the flag
 `browserInitialized` and the two handles `stagehand` and `page`, with `init`,
 `health`, `shutdown`, and the two crash listeners as pure transitions.

 The automation engine is an oracle: what `new Stagehand(...)`, `stagehand.init()`
 and each `page.goto(...)` do is an argument the caller supplies.
 */
module Session {
  import opened Options
  import opened Classifier

  /** What a registered `filechooser` listener answers: `setFiles(filePath)`, or `setFiles([])` without a path. */
  datatype ChooserHandler = SupplyFiles(files: seq<string>)

  /**
   The live page handle: whether the engine reports it closed (`page.isClosed()`),
   and the `filechooser` listeners registered on it, oldest first.
   */
  datatype Page = Page(closed: bool, chooserHandlers: seq<ChooserHandler>)

  /** `browserInitialized`, whether `stagehand` is non-null, and `page` (None for null). */
  datatype Session = Session(initialized: bool, hasEngine: bool, page: Option<Page>)

  /** The state the constructor leaves: flag false, both handles null. */
  const Initial := Session(false, false, None)

  /** The page a freshly launched engine hands out. */
  const FreshPage := Page(false, [])

  /** Handles are created engine first, page second, and the flag is raised only with a page. */
  ghost predicate Valid(s: Session) {
    && (s.page.Some? ==> s.hasEngine)
    && (s.initialized ==> s.page.Some?)
  }

  // ---------------------------------------------------------------- health

  datatype HealthStatus = Healthy | Unhealthy

  /** `health()`: the only place that asks the page whether it is closed. */
  function Health(s: Session): (h: HealthStatus)
    ensures h == Healthy <==> s.initialized && s.page.Some? && !s.page.value.closed
    ensures s.page.Some? && s.page.value.closed ==> h == Unhealthy
  {
    if s.initialized && s.page.Some? && !s.page.value.closed then Healthy else Unhealthy
  }

  // ---------------------------------------------------------------- shutdown

  /** The `{status, message}` object `init` and `shutdown` return. */
  datatype StatusReply = StatusReply(status: string, message: string)

  const ShutdownReply := StatusReply("shutdown", "Browser shutdown")

  /** The state after `shutdown`, whether `stagehand.close()` was called, and the reply. */
  datatype ShutdownStep = ShutdownStep(session: Session, closeCalled: bool, reply: StatusReply)

  /**
   `shutdown()`: the flag is cleared before `stagehand.close()` is attempted and a
   failing close is swallowed, so `closeFails` changes nothing the caller sees.
   */
  function Shutdown(s: Session, closeFails: bool): (r: ShutdownStep)
    ensures !r.session.initialized && !r.session.hasEngine && r.session.page.None?
    ensures Health(r.session) == Unhealthy && Valid(r.session)
    ensures r.closeCalled <==> s.hasEngine && s.page.Some?
    ensures r.reply.status == "shutdown"
  {
    ShutdownStep(Initial, s.hasEngine && s.page.Some?, ShutdownReply)
  }

  // ---------------------------------------------------------------- crash listeners

  /** The two listeners `init` attaches: the page's `close` and the browser's `disconnected`. */
  datatype Crash = PageClosed | BrowserDisconnected

  /**
   A crash listener runs. Both only clear the flag: the handles stay as they are.
   A listener of an earlier page clears the same flag, so no precondition applies.
   */
  function OnCrash(s: Session, e: Crash): (r: Session)
    ensures !r.initialized
    ensures r.hasEngine == s.hasEngine && r.page == s.page
    ensures Health(r) == Unhealthy
    ensures Valid(s) ==> Valid(r)
  {
    s.(initialized := false)
  }

  /**
   The engine closes the page: from now on `page.isClosed()` answers true. The
   `close` listener runs as a separate step (`OnCrash`), so in between the flag
   still says initialized.
   */
  function ClosePage(s: Session): (r: Session)
    ensures r.initialized == s.initialized && r.hasEngine == s.hasEngine
    ensures r.page.Some? <==> s.page.Some?
    ensures r.page.Some? ==> r.page.value.closed && r.page.value.chooserHandlers == s.page.value.chooserHandlers
    ensures Health(r) == Unhealthy
    ensures Valid(s) ==> Valid(r)
  {
    match s.page
    case None => s
    case Some(p) => s.(page := Some(p.(closed := true)))
  }

  // ---------------------------------------------------------------- init

  /** What the engine does when `init` constructs and launches it. */
  datatype Launch =
    | ConstructThrows(error: string)     // `new Stagehand(...)` throws; `stagehand` is not assigned
    | LaunchThrows(error: string)        // `stagehand.init()` throws after `stagehand` was assigned
    | Launched                           // launch succeeds and `stagehand.page` is set

  /** The outcome of one `page.goto(...)`: loaded, or failed with the error's message. */
  datatype Nav = Loaded | NavFailed(message: string)

  const AlreadyInitialized := "Browser already initialized"
  const Initialized := "Browser initialized"
  const Degraded := "Browser initialized (but internet connectivity test failed - check sandbox network configuration and firewall/proxy settings)"
  const InitFailed := "Failed to initialize browser"

  /** `String(error) || "Failed to initialize browser"`. */
  function InitErrorMessage(e: string): (msg: string)
    ensures msg != ""
    ensures e != "" ==> msg == e
    ensures e == "" ==> msg == InitFailed
  {
    if e == "" then InitFailed else e
  }

  /**
   The connectivity probe after a successful launch: HTTP first, HTTPS only when
   HTTP failed; the result only chooses between the two healthy messages.
   */
  function ProbeMessage(http: Nav, https: Nav): (msg: string)
    ensures msg == Degraded || msg == Initialized
    ensures msg == Degraded <==> http.NavFailed? && https.NavFailed? && NoConnectivity(https.message)
  {
    match http
    case Loaded => Initialized
    case NavFailed(_) =>
      match https
      case Loaded => Initialized
      case NavFailed(httpsMessage) =>
        if NoConnectivity(httpsMessage) then Degraded else Initialized
  }

  /**
   The state after `init`, its reply, whether it ran `shutdown` first, and whether
   it overwrote an engine handle that was never closed.
   */
  datatype InitStep = InitStep(session: Session, reply: StatusReply, shutdownRan: bool, abandoned: bool)

  /**
   `init(apiKey)`. When the flag is set it is a no-op. Otherwise it shuts down
   only when BOTH handles are present, constructs and launches the engine, and
   reports "healthy" whatever the connectivity probe finds; only a throwing
   construction or launch yields "error", and then the flag stays clear.
   */
  function Init(s: Session, launch: Launch, http: Nav, https: Nav): (r: InitStep)
    ensures s.initialized ==> r == InitStep(s, StatusReply("healthy", AlreadyInitialized), false, false)
    ensures r.shutdownRan <==> !s.initialized && s.hasEngine && s.page.Some?
    ensures r.reply.status == "error" <==> !s.initialized && !launch.Launched?
    ensures r.reply.status != "error" ==> r.reply.status == "healthy"
    ensures !s.initialized ==> (r.session.initialized <==> launch.Launched?)
    ensures r.reply.status == "error" ==> r.reply.message == InitErrorMessage(launch.error)
    ensures !s.initialized && launch.Launched? ==>
      && r.session == Session(true, true, Some(FreshPage))
      && (r.reply.message == Degraded <==> http.NavFailed? && https.NavFailed? && NoConnectivity(https.message))
      && (r.reply.message != Degraded ==> r.reply.message == Initialized)
    ensures !s.initialized && launch.ConstructThrows? ==> r.session == (if r.shutdownRan then Initial else s)
    ensures !s.initialized && launch.LaunchThrows? ==> r.session.hasEngine && r.session.page == (if r.shutdownRan then None else s.page)
    ensures r.abandoned <==> !s.initialized && !launch.ConstructThrows? && s.hasEngine && s.page.None?
    ensures Valid(s) ==> Valid(r.session)
  {
    if s.initialized then
      InitStep(s, StatusReply("healthy", AlreadyInitialized), false, false)
    else
      var cleanup := s.hasEngine && s.page.Some?;
      var s1 := if cleanup then Shutdown(s, false).session else s;
      match launch
      case ConstructThrows(e) =>
        InitStep(s1, StatusReply("error", InitErrorMessage(e)), cleanup, false)
      case LaunchThrows(e) =>
        InitStep(s1.(hasEngine := true), StatusReply("error", InitErrorMessage(e)), cleanup, s1.hasEngine)
      case Launched =>
        var reply := StatusReply("healthy", ProbeMessage(http, https));
        InitStep(Session(true, true, Some(FreshPage)), reply, cleanup, s1.hasEngine)
  }

  // ---------------------------------------------------------------- lemmas

  /** A second `init` after a successful one is a no-op: no shutdown, no new engine, same state. */
  lemma InitIdempotent(s: Session, l1: Launch, h1: Nav, t1: Nav, l2: Launch, h2: Nav, t2: Nav)
    requires Init(s, l1, h1, t1).reply.status == "healthy"
    ensures var first := Init(s, l1, h1, t1).session;
            var second := Init(first, l2, h2, t2);
            && second.session == first
            && second.reply == StatusReply("healthy", AlreadyInitialized)
            && !second.shutdownRan && !second.abandoned
  {
  }

  /**
   A failed launch leaves a stale engine handle without a page. The next `init`
   does not shut it down (the cleanup wants both handles) and, once it constructs
   a new engine, overwrites the old one without ever closing it.
   */
  lemma StaleHandleSkipsShutdown(s: Session, e: string, l: Launch, h1: Nav, t1: Nav, h2: Nav, t2: Nav)
    requires Valid(s) && !s.initialized && !l.ConstructThrows?
    ensures var failed := Init(s, LaunchThrows(e), h1, t1).session;
            var next := Init(failed, l, h2, t2);
            && failed.hasEngine && failed.page.None? && !failed.initialized
            && !next.shutdownRan && next.abandoned
  {
  }

  /** After either crash listener runs, `health()` is unhealthy and `init` will launch again. */
  lemma CrashForcesRelaunch(s: Session, e: Crash, l: Launch, h: Nav, t: Nav)
    requires Valid(s)
    ensures Health(OnCrash(s, e)) == Unhealthy
    ensures Init(OnCrash(s, e), l, h, t).reply != StatusReply("healthy", AlreadyInitialized)
    ensures Init(OnCrash(s, e), l, h, t).shutdownRan <==> s.page.Some?
  {
  }
}
