/**
 The request handlers of `BrowserAutomation` (browserApi.ts): the readiness
 guard each one starts with, the best-effort state snapshot
 (`get_stagehand_state`), and the replies of `navigate`, `screenshot`, `act`,
 `extract` and `convertSvg`.

 Every engine call is an oracle argument: `Nav` for `goto`, `Capture` for the
 snapshot, and one outcome type per action.
 */
module Handlers {
  import opened Options
  import opened Classifier
  import opened Session

  /** `BrowserActionResult`; an optional field is None when the reply leaves it out. */
  datatype ActionResult = ActionResult(
    success: bool,
    message: string,
    error: Option<string>,
    url: string,
    title: string,
    screenshot: Option<string>,
    action: Option<string>)

  /** An HTTP status with its JSON body. */
  datatype Response = Response(status: int, body: ActionResult)

  // ---------------------------------------------------------------- snapshot

  /** The three strings `get_stagehand_state` returns. */
  datatype Snapshot = Snapshot(url: string, title: string, screenshot: string)

  const NoSnapshot := Snapshot("", "", "")

  /** What the engine does when asked for a viewport screenshot, then `url()`, then `title()`. */
  datatype Capture = CaptureThrows | Captured(screenshot: string, url: string, title: string)

  /**
   `get_stagehand_state()`: the page's URL, title and screenshot while `health()`
   is healthy; three empty strings when it is not or when any capture step throws.
   */
  function StagehandState(s: Session, c: Capture): (snap: Snapshot)
    ensures Health(s) == Unhealthy || c.CaptureThrows? ==> snap == NoSnapshot
    ensures Health(s) == Healthy && c.Captured? ==> snap == Snapshot(c.url, c.title, c.screenshot)
  {
    if s.page.Some? && Health(s) == Healthy then
      match c
      case Captured(shot, url, title) => Snapshot(url, title, shot)
      case CaptureThrows => NoSnapshot
    else
      NoSnapshot
  }

  // ---------------------------------------------------------------- guard

  /** The guard of every handler: `this.page && this.browserInitialized`; `health()` is not asked. */
  predicate Ready(s: Session) {
    s.page.Some? && s.initialized
  }

  /** The guard's 500 reply; it carries no screenshot field. */
  function NotInitialized(purpose: string): (r: Response)
    ensures r.status == 500 && !r.body.success && r.body.message == "Browser not initialized"
    ensures r.body.url == "" && r.body.title == "" && r.body.screenshot.None?
  {
    Response(500, ActionResult(false, "Browser not initialized", Some("Browser must be initialized before " + purpose), "", "", None, None))
  }

  /** The 500 reply of a handler's catch block: a fixed message, the error, and a fresh snapshot. */
  function Failure(message: string, error: string, snap: Snapshot): Response {
    Response(500, ActionResult(false, message, Some(error), snap.url, snap.title, Some(snap.screenshot), None))
  }

  // ---------------------------------------------------------------- navigate

  /**
   `navigate`: `goto(url)`; on failure the classified message is raised, caught
   by the outer handler, and reported with a snapshot.
   */
  function Navigate(s: Session, url: string, nav: Nav, c: Capture): (r: Response)
    ensures !Ready(s) ==> r == NotInitialized("navigation")
    ensures r.status == 200 <==> Ready(s) && nav.Loaded?
    ensures r.status == 200 ==> r.body.success && r.body.message == "Navigated to " + url && r.body.error == Some("")
    ensures Ready(s) && nav.NavFailed? ==>
      && r.status == 500 && !r.body.success
      && r.body.message == "Failed to navigate to " + (if url == "" then "unknown URL" else url)
      && r.body.error == Some(NavigationError(nav.message))
    ensures Ready(s) ==>
      var snap := StagehandState(s, c);
      r.body.url == snap.url && r.body.title == snap.title && r.body.screenshot == Some(snap.screenshot)
  {
    if !Ready(s) then
      NotInitialized("navigation")
    else
      var snap := StagehandState(s, c);
      match nav
      case Loaded =>
        Response(200, ActionResult(true, "Navigated to " + url, Some(""), snap.url, snap.title, Some(snap.screenshot), None))
      case NavFailed(m) =>
        Failure("Failed to navigate to " + (if url == "" then "unknown URL" else url), NavigationError(m), snap)
  }

  // ---------------------------------------------------------------- screenshot

  /** `screenshot`: the snapshot itself is the result; its catch block cannot be reached. */
  function TakeScreenshot(s: Session, c: Capture): (r: Response)
    ensures !Ready(s) ==> r == NotInitialized("taking screenshot")
    ensures Ready(s) ==>
      var snap := StagehandState(s, c);
      && r.status == 200 && r.body.success && r.body.message == "Screenshot taken" && r.body.error.None?
      && r.body.url == snap.url && r.body.title == snap.title && r.body.screenshot == Some(snap.screenshot)
  {
    if !Ready(s) then
      NotInitialized("taking screenshot")
    else
      var snap := StagehandState(s, c);
      Response(200, ActionResult(true, "Screenshot taken", None, snap.url, snap.title, Some(snap.screenshot), None))
  }

  // ---------------------------------------------------------------- act

  /** The outcome of `page.act(...)`: its result object, or the error it threw. */
  datatype ActOutcome = ActThrows(error: string) | Acted(success: bool, message: string, action: string)

  datatype ActStep = ActStep(session: Session, response: Response)

  /** The `filechooser` listener `act` registers: it supplies `filePath`, or no file when there is none. */
  function ChooserFor(filePath: string): (h: ChooserHandler)
    ensures filePath == "" <==> h.files == []
    ensures filePath != "" ==> h.files == [filePath]
  {
    if filePath == "" then SupplyFiles([]) else SupplyFiles([filePath])
  }

  /**
   `act`: registers a `filechooser` listener on the page, runs the action and
   reports it with a snapshot. The `finally` block tests the outer `let`
   variable, which the inner `const` of the same name shadows and which stays
   null, so the listener is never removed, on success and on failure alike.
   */
  function Act(s: Session, filePath: string, outcome: ActOutcome, c: Capture): (r: ActStep)
    ensures !Ready(s) ==> r.session == s && r.response == NotInitialized("performing actions")
    ensures Ready(s) ==>
      && r.session.initialized == s.initialized && r.session.hasEngine == s.hasEngine
      && r.session.page == Some(s.page.value.(chooserHandlers := s.page.value.chooserHandlers + [ChooserFor(filePath)]))
    ensures Ready(s) ==> (r.response.status == 200 <==> outcome.Acted?)
    ensures Ready(s) && outcome.Acted? ==>
      && r.response.body.success == outcome.success
      && r.response.body.message == outcome.message
      && r.response.body.action == Some(outcome.action)
    ensures Ready(s) && outcome.Acted? ==>
      var snap := StagehandState(s, c);
      && r.response.body.url == snap.url && r.response.body.title == snap.title
      && r.response.body.screenshot == Some(snap.screenshot)
    ensures Ready(s) && outcome.ActThrows? ==>
      r.response == Failure("Failed to act", outcome.error, StagehandState(s, c))
  {
    if !Ready(s) then
      ActStep(s, NotInitialized("performing actions"))
    else
      var p := s.page.value;
      var registered := s.(page := Some(p.(chooserHandlers := p.chooserHandlers + [ChooserFor(filePath)])));
      var snap := StagehandState(registered, c);
      var response :=
        match outcome
        case Acted(ok, message, action) =>
          Response(200, ActionResult(ok, message, None, snap.url, snap.title, Some(snap.screenshot), Some(action)))
        case ActThrows(e) =>
          Failure("Failed to act", e, snap);
      // `finally` tests the outer `let`, shadowed by the inner `const` and still
      // null, so it never calls `off`: the listener stays registered.
      ActStep(registered, response)
  }

  // ---------------------------------------------------------------- extract

  /** The outcome of `page.extract(...)`: its result object, or the error it threw. */
  datatype ExtractOutcome = ExtractThrows(error: string) | Extracted(success: bool, extraction: string)

  /** `extract`: instruction in, extraction reported in the `action` field. */
  function Extract(s: Session, instruction: string, outcome: ExtractOutcome, c: Capture): (r: Response)
    ensures !Ready(s) ==> r == NotInitialized("extracting data")
    ensures Ready(s) ==> (r.status == 200 <==> outcome.Extracted?)
    ensures Ready(s) && outcome.Extracted? ==>
      && r.body.success == outcome.success
      && r.body.message == "Extracted result for: " + instruction
      && r.body.action == Some(outcome.extraction)
    ensures Ready(s) && outcome.Extracted? ==>
      var snap := StagehandState(s, c);
      r.body.url == snap.url && r.body.title == snap.title && r.body.screenshot == Some(snap.screenshot)
    ensures Ready(s) && outcome.ExtractThrows? ==>
      r == Failure("Failed to extract", outcome.error, StagehandState(s, c))
  {
    if !Ready(s) then
      NotInitialized("extracting data")
    else
      var snap := StagehandState(s, c);
      match outcome
      case Extracted(ok, extraction) =>
        Response(200, ActionResult(ok, "Extracted result for: " + instruction, None, snap.url, snap.title, Some(snap.screenshot), Some(extraction)))
      case ExtractThrows(e) =>
        Failure("Failed to extract", e, snap)
  }

  // ---------------------------------------------------------------- convertSvg

  /** An element's bounding box as `boundingBox()` reports it. */
  datatype Box = Box(width: real, height: real)

  datatype ShotTarget = ElementShot | FullPageShot

  /**
   Which screenshot `convertSvg` takes: the first `svg` element's, only when at
   least one exists and it has a bounding box of positive area; otherwise the
   full page, whether there is no `svg`, no box, or an empty one.
   */
  function ShotTargetFor(svgCount: int, bbox: Option<Box>): (t: ShotTarget)
    ensures t == ElementShot <==> svgCount > 0 && bbox.Some? && bbox.value.width > 0.0 && bbox.value.height > 0.0
  {
    if svgCount > 0 then
      match bbox
      case Some(b) => if b.width > 0.0 && b.height > 0.0 then ElementShot else FullPageShot
      case None => FullPageShot
    else
      FullPageShot
  }

  /**
   What the engine does for `goto("file://" + path)`, the settle wait, the `svg`
   locator and the chosen screenshot: the error of the first step that throws,
   or the element count, the first element's box and both possible screenshots.
   */
  datatype SvgRender =
    | RenderThrows(error: string)
    | Rendered(svgCount: int, bbox: Option<Box>, elementShot: string, pageShot: string)

  /**
   `convertSvg`: the initialization guard comes before the path check; the
   success reply carries the conversion's own screenshot, not the snapshot's.
   */
  function ConvertSvg(s: Session, svgPath: string, render: SvgRender, c: Capture): (r: Response)
    ensures !Ready(s) ==> r == NotInitialized("converting SVG")
    ensures Ready(s) && svgPath == "" ==>
      && r.status == 400 && !r.body.success && r.body.message == "SVG file path is required"
      && r.body.url == "" && r.body.title == "" && r.body.screenshot.None?
    ensures r.status == 200 <==> Ready(s) && svgPath != "" && render.Rendered?
    ensures r.status == 200 ==>
      && r.body.success
      && r.body.message == "Successfully converted SVG to PNG: " + svgPath
      && r.body.screenshot == Some(
           if ShotTargetFor(render.svgCount, render.bbox) == ElementShot then render.elementShot else render.pageShot)
    ensures r.status == 200 ==>
      var snap := StagehandState(s, c);
      r.body.url == snap.url && r.body.title == snap.title
    ensures Ready(s) && svgPath != "" && render.RenderThrows? ==>
      r == Failure("Failed to convert SVG", render.error, StagehandState(s, c))
  {
    if !s.initialized || s.page.None? then
      NotInitialized("converting SVG")
    else if svgPath == "" then
      Response(400, ActionResult(false, "SVG file path is required", Some("svg_file_path parameter is missing"), "", "", None, None))
    else
      var snap := StagehandState(s, c);
      match render
      case RenderThrows(e) =>
        Failure("Failed to convert SVG", e, snap)
      case Rendered(count, bbox, elementShot, pageShot) =>
        var shot := if ShotTargetFor(count, bbox) == ElementShot then elementShot else pageShot;
        Response(200, ActionResult(true, "Successfully converted SVG to PNG: " + svgPath, None, snap.url, snap.title, Some(shot), None))
  }

  // ---------------------------------------------------------------- lemmas

  /** For a reachable session the guard is the flag alone. */
  lemma ReadyIsInitialized(s: Session)
    requires Valid(s)
    ensures Ready(s) <==> s.initialized
  {
  }

  /**
   The guard lets a closed page through while the flag is still set: the
   handler runs, and its snapshot is empty because `health()` is unhealthy.
   `screenshot` then reports success with nothing in it, and a `goto` on the
   closed page fails with a 500 that carries an empty snapshot.
   */
  lemma GuardIgnoresClosedPage(s: Session, url: string, m: string, c: Capture)
    requires Ready(s)
    ensures Ready(ClosePage(s)) && Health(ClosePage(s)) == Unhealthy
    ensures TakeScreenshot(ClosePage(s), c)
            == Response(200, ActionResult(true, "Screenshot taken", None, "", "", Some(""), None))
    ensures var r := Navigate(ClosePage(s), url, NavFailed(m), c);
      && r.status == 500 && !r.body.success
      && r.body.url == "" && r.body.title == "" && r.body.screenshot == Some("")
  {
  }

  /** After a crash listener runs, every handler answers with its guard reply and changes nothing. */
  lemma CrashRefusesEveryHandler(s: Session, e: Crash, url: string, nav: Nav, path: string,
                                 act: ActOutcome, instruction: string, ex: ExtractOutcome,
                                 svg: string, render: SvgRender, c: Capture)
    ensures var t := OnCrash(s, e);
      && Navigate(t, url, nav, c) == NotInitialized("navigation")
      && TakeScreenshot(t, c) == NotInitialized("taking screenshot")
      && Act(t, path, act, c) == ActStep(t, NotInitialized("performing actions"))
      && Extract(t, instruction, ex, c) == NotInitialized("extracting data")
      && ConvertSvg(t, svg, render, c) == NotInitialized("converting SVG")
  {
  }

  /**
   A failing snapshot never masks the action's own outcome: status, success,
   message and error do not depend on what the capture does.
   */
  lemma SnapshotNeverMasksOutcome(s: Session, url: string, nav: Nav, path: string, act: ActOutcome,
                                  instruction: string, ex: ExtractOutcome, c1: Capture, c2: Capture)
    ensures var r1, r2 := Navigate(s, url, nav, c1), Navigate(s, url, nav, c2);
      r1.status == r2.status && r1.body.success == r2.body.success && r1.body.error == r2.body.error
      && r1.body.message == r2.body.message
    ensures var r1, r2 := Act(s, path, act, c1).response, Act(s, path, act, c2).response;
      r1.status == r2.status && r1.body.success == r2.body.success && r1.body.error == r2.body.error
      && r1.body.message == r2.body.message
    ensures var r1, r2 := Extract(s, instruction, ex, c1), Extract(s, instruction, ex, c2);
      r1.status == r2.status && r1.body.success == r2.body.success && r1.body.error == r2.body.error
      && r1.body.message == r2.body.message
  {
  }

  /**
   A handler whose guard fails calls no engine: its reply (and for `act` the
   state) is the same whatever the engine would have done.
   */
  lemma GuardMakesNoEngineCall(s: Session, url: string, n1: Nav, n2: Nav, path: string,
                               a1: ActOutcome, a2: ActOutcome, instruction: string,
                               x1: ExtractOutcome, x2: ExtractOutcome, svg: string,
                               r1: SvgRender, r2: SvgRender, c1: Capture, c2: Capture)
    requires !Ready(s)
    ensures Navigate(s, url, n1, c1) == Navigate(s, url, n2, c2)
    ensures TakeScreenshot(s, c1) == TakeScreenshot(s, c2)
    ensures Act(s, path, a1, c1) == Act(s, path, a2, c2) && Act(s, path, a1, c1).session == s
    ensures Extract(s, instruction, x1, c1) == Extract(s, instruction, x2, c2)
    ensures ConvertSvg(s, svg, r1, c1) == ConvertSvg(s, svg, r2, c2)
  {
  }

  /**
   Only replies produced past the guard carry a `screenshot_base64` field: the
   guard's replies (and `convertSvg`'s missing-path reply) leave it out.
   */
  lemma ScreenshotFieldOnlyPastGuard(s: Session, url: string, nav: Nav, path: string, act: ActOutcome, c: Capture)
    ensures Navigate(s, url, nav, c).body.screenshot.Some? <==> Ready(s)
    ensures TakeScreenshot(s, c).body.screenshot.Some? <==> Ready(s)
    ensures Act(s, path, act, c).response.body.screenshot.Some? <==> Ready(s)
  {
  }

  /** The same for `extract` and `convertSvg`. */
  lemma ScreenshotFieldOnlyPastChecks(s: Session, instruction: string, ex: ExtractOutcome, svg: string,
                                      render: SvgRender, c: Capture)
    ensures Extract(s, instruction, ex, c).body.screenshot.Some? <==> Ready(s)
    ensures ConvertSvg(s, svg, render, c).body.screenshot.Some? <==> Ready(s) && svg != ""
  {
  }
}
