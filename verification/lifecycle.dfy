/**
 The life of one `BrowserAutomation` object as a sequence of events: the calls
 that change its state (`init` and `act`, both reachable over HTTP), the engine
 closing the page, and the crash listeners firing. `shutdown` has no route and
 only `init` calls it; it is still an event here, so the invariants below hold
 over a superset of the runs clients can cause. Each event is taken whole; the
 interleaving of awaits inside one call is not modelled.
 */
module Lifecycle {
  import opened Options
  import opened Session
  import opened Handlers

  datatype Event =
    | InitCall(launch: Launch, http: Nav, https: Nav)
    | ShutdownCall(closeFails: bool)
    | PageCloses
    | CrashNotice(crash: Crash)
    | ActCall(filePath: string, outcome: ActOutcome, capture: Capture)

  /** The state after one event. The handlers other than `act` leave the state as it is. */
  function Step(s: Session, e: Event): Session {
    match e
    case InitCall(l, h, t) => Init(s, l, h, t).session
    case ShutdownCall(f) => Shutdown(s, f).session
    case PageCloses => ClosePage(s)
    case CrashNotice(c) => OnCrash(s, c)
    case ActCall(p, o, c) => Act(s, p, o, c).session
  }

  /** The state after a whole sequence of events, oldest first. */
  function Run(s: Session, evs: seq<Event>): Session
    decreases |evs|
  {
    if |evs| == 0 then s else Run(Step(s, evs[0]), evs[1..])
  }

  /** Every event keeps the handles consistent with the flag. */
  lemma StepPreservesValid(s: Session, e: Event)
    requires Valid(s)
    ensures Valid(Step(s, e))
  {
  }

  lemma {:induction false} RunPreservesValid(s: Session, evs: seq<Event>)
    requires Valid(s)
    ensures Valid(Run(s, evs))
    decreases |evs|
  {
    if |evs| > 0 {
      StepPreservesValid(s, evs[0]);
      RunPreservesValid(Step(s, evs[0]), evs[1..]);
    }
  }

  /** Every state reachable from the constructor's state is consistent. */
  lemma {:induction false} ReachableIsValid(evs: seq<Event>)
    ensures Valid(Run(Initial, evs))
  {
    RunPreservesValid(Initial, evs);
  }

  /**
   Once the flag is clear, only `init` raises it again: without an `init` call
   the session stays uninitialized and `health()` unhealthy.
   */
  lemma {:induction false} NoRecoveryWithoutInit(s: Session, evs: seq<Event>)
    requires !s.initialized
    requires forall i | 0 <= i < |evs| :: !evs[i].InitCall?
    ensures !Run(s, evs).initialized && Health(Run(s, evs)) == Unhealthy
    decreases |evs|
  {
    if |evs| > 0 {
      assert !evs[0].InitCall?;
      assert forall i | 0 <= i < |evs[1..]| :: evs[1..][i] == evs[i + 1];
      NoRecoveryWithoutInit(Step(s, evs[0]), evs[1..]);
    }
  }

  /** The flag can only have been raised by an `init` whose launch succeeded. */
  lemma {:induction false} FlagRaisedOnlyByLaunch(s: Session, evs: seq<Event>)
    requires !s.initialized && Run(s, evs).initialized
    ensures exists i | 0 <= i < |evs| :: evs[i].InitCall? && evs[i].launch.Launched?
    decreases |evs|
  {
    if |evs| == 0 {
      assert false;
    } else {
      var t := Step(s, evs[0]);
      if t.initialized {
        assert evs[0].InitCall? && evs[0].launch.Launched?;
      } else {
        FlagRaisedOnlyByLaunch(t, evs[1..]);
        var i: int :| 0 <= i < |evs[1..]| && evs[1..][i].InitCall? && evs[1..][i].launch.Launched?;
        assert evs[i + 1] == evs[1..][i];
      }
    }
  }

  /** The `filechooser` listeners a sequence of `act` calls registers, oldest first. */
  function Choosers(evs: seq<Event>): (hs: seq<ChooserHandler>)
    requires forall i | 0 <= i < |evs| :: evs[i].ActCall?
    ensures |hs| == |evs|
    ensures forall i | 0 <= i < |evs| :: hs[i] == ChooserFor(evs[i].filePath)
    decreases |evs|
  {
    if |evs| == 0 then [] else [ChooserFor(evs[0].filePath)] + Choosers(evs[1..])
  }

  /** `Choosers` peeled once. */
  lemma ChoosersCons(evs: seq<Event>)
    requires 0 < |evs| && forall i | 0 <= i < |evs| :: evs[i].ActCall?
    ensures Choosers(evs) == [ChooserFor(evs[0].filePath)] + Choosers(evs[1..])
  {
  }

  lemma AppendAssoc(a: seq<ChooserHandler>, b: seq<ChooserHandler>, c: seq<ChooserHandler>)
    ensures (a + b) + c == a + (b + c)
  {
  }

  /** One `act` call on a ready session adds its listener and keeps the session ready. */
  lemma ActCallRegisters(s: Session, e: Event)
    requires Ready(s) && e.ActCall?
    ensures Ready(Step(s, e))
    ensures Step(s, e).page.value.chooserHandlers == s.page.value.chooserHandlers + [ChooserFor(e.filePath)]
  {
  }

  /**
   The listener leak of `act`: on a ready session, `n` act calls, successful or
   not, leave all `n` listeners on the page, so a later file chooser is answered
   by every earlier call's listener too.
   */
  lemma {:induction false} ActsAccumulateChoosers(s: Session, evs: seq<Event>)
    requires Ready(s)
    requires forall i | 0 <= i < |evs| :: evs[i].ActCall?
    ensures Ready(Run(s, evs))
    ensures Run(s, evs).page.value.chooserHandlers == s.page.value.chooserHandlers + Choosers(evs)
    decreases |evs|
  {
    var hs := s.page.value.chooserHandlers;
    if |evs| == 0 {
      assert hs + [] == hs;
    } else {
      var t := Step(s, evs[0]);
      var rest := evs[1..];
      ActCallRegisters(s, evs[0]);
      assert forall i | 0 <= i < |rest| :: rest[i] == evs[i + 1];
      ActsAccumulateChoosers(t, rest);
      assert Run(s, evs) == Run(t, rest);
      ChoosersCons(evs);
      AppendAssoc(hs, [ChooserFor(evs[0].filePath)], Choosers(rest));
    }
  }

  /** Two acts on a fresh page: the second file chooser sees both listeners, the first call's included. */
  lemma TwoActsKeepBothListeners(p1: string, p2: string, o1: ActOutcome, o2: ActOutcome, c1: Capture, c2: Capture)
    ensures var s := Run(Session(true, true, Some(FreshPage)), [ActCall(p1, o1, c1), ActCall(p2, o2, c2)]);
      s.page.Some? && s.page.value.chooserHandlers == [ChooserFor(p1), ChooserFor(p2)]
  {
    var evs := [ActCall(p1, o1, c1), ActCall(p2, o2, c2)];
    ActsAccumulateChoosers(Session(true, true, Some(FreshPage)), evs);
  }
}
