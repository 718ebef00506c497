/**
 * The biometric gate shared by the restricted-folder modal, the identity
 * modal and the Face ID screen: an `isScanning` flag and an `error` message
 * around one awaited `checkBiometrics()` call, and a 500 ms timer that calls
 * the component's success callback.
 *
 * The awaited call and the timer are not synchronous: starting a check only
 * leaves it in flight, the outcome arrives later as an event of its own,
 * and a success only schedules the timer, whose firing is another event.
 * The three components differ in their messages and in which buttons and
 * effects can start a check; a `Policy` records those differences.
 */
module GateProtocol {
  import opened Wrappers

  /** What the awaited biometric check yields: true, false, or an exception. */
  datatype Outcome = Verified | Rejected | Threw

  datatype Policy = Policy(
    rejectedMessage: string,  // set when the check yields false
    threwMessage: string,     // set when the check throws
    hasScanButton: bool,      // a button, disabled while scanning, that starts a check
    hasRetryButton: bool,     // a button, shown only while an error is set, that starts a check
    autoStartOnOpen: bool,    // an effect on `isOpen` that starts a check
    hasOpenProp: bool)        // rendered only while the page's `isOpen` prop is true

  /**
   * The component's state. `checkInFlight` is the awaited call not yet
   * settled; `grantScheduled` the 500 ms timer not yet fired.
   */
  datatype Gate = Gate(
    isOpen: bool,
    isScanning: bool,
    error: Option<string>,
    checkInFlight: bool,
    grantScheduled: bool)

  datatype Event =
    | Opened               // the page sets `isOpen` to true
    | Closed              // the page sets `isOpen` to false (backdrop, cancel button or the page's own handler)
    | ScanPressed          // the scan button
    | RetryPressed         // the retry button
    | Settled(o: Outcome) // the awaited check returns or throws
    | TimerFired               // the 500 ms timer calls the success callback

  /** Not scanning, no error; a screen without an `isOpen` prop is shown whenever it is mounted. */
  function Initial(p: Policy): (g: Gate)
    ensures !g.isScanning && g.error == None && !g.checkInFlight && !g.grantScheduled
  {
    Gate(!p.hasOpenProp, false, None, false, false)
  }

  /** The start of a check: scanning, the error cleared, the call in flight. */
  function Begin(g: Gate): Gate {
    g.(isScanning := true, error := None, checkInFlight := true)
  }

  /** The events the rendered component, its effect and its pending callbacks can raise in `g`. */
  predicate Enabled(p: Policy, g: Gate, e: Event) {
    match e
    case Opened => p.hasOpenProp && !g.isOpen
    case Closed => p.hasOpenProp && g.isOpen
    case ScanPressed => p.hasScanButton && g.isOpen && !g.isScanning
    case RetryPressed => p.hasRetryButton && g.isOpen && g.error.Some?
    case Settled(_) => g.checkInFlight
    case TimerFired => g.grantScheduled
  }

  /** The cancel button: rendered while open, disabled while scanning. */
  predicate CancelEnabled(g: Gate) {
    g.isOpen && !g.isScanning
  }

  function Step(p: Policy, g: Gate, e: Event): Gate {
    match e
    case Opened =>
      var h := g.(isOpen := true);
      if p.autoStartOnOpen && !g.isScanning && g.error.None? then Begin(h) else h
    case Closed => g.(isOpen := false)
    case ScanPressed => Begin(g)
    case RetryPressed => Begin(g)
    case Settled(Verified) => g.(checkInFlight := false, grantScheduled := true)
    case Settled(Rejected) => g.(checkInFlight := false, error := Some(p.rejectedMessage), isScanning := false)
    case Settled(Threw) => g.(checkInFlight := false, error := Some(p.threwMessage), isScanning := false)
    case TimerFired => g.(grantScheduled := false)
  }

  function Run(p: Policy, t: seq<Event>): Gate
    decreases |t|
  {
    if t == [] then Initial(p) else Step(p, Run(p, t[..|t| - 1]), t[|t| - 1])
  }

  predicate ValidTrace(p: Policy, t: seq<Event>)
    decreases |t|
  {
    t == [] || (ValidTrace(p, t[..|t| - 1]) && Enabled(p, Run(p, t[..|t| - 1]), t[|t| - 1]))
  }

  /** How many times `e` occurs in `t`. */
  function Count(t: seq<Event>, e: Event): nat
    decreases |t|
  {
    if t == [] then 0 else Count(t[..|t| - 1], e) + (if t[|t| - 1] == e then 1 else 0)
  }

  /**
   * What holds in every reachable state: a check in flight or a scheduled
   * grant comes with the scanning flag and no error, an error comes without
   * the scanning flag and is one of the policy's two messages, and at most
   * one of the call and the timer is pending.
   */
  predicate Inv(p: Policy, g: Gate) {
    && (g.error.Some? ==> g.error.value == p.rejectedMessage || g.error.value == p.threwMessage)
    && (g.checkInFlight ==> g.isScanning && g.error == None && !g.grantScheduled)
    && (g.grantScheduled ==> g.isScanning && g.error == None)
    && (g.error.Some? ==> !g.isScanning)
    && (!p.hasOpenProp ==> g.isOpen)
  }

  /** Scanning with nothing in flight: the state a successful check leaves behind. */
  predicate Latched(g: Gate) {
    g.isScanning && !g.checkInFlight
  }

  lemma StepPreservesInv(p: Policy, g: Gate, e: Event)
    requires Inv(p, g) && Enabled(p, g, e)
    ensures Inv(p, Step(p, g, e))
  {
  }

  /**
   * A step starts a check exactly when it is a scan press, a retry press,
   * or an opening with auto-start while neither scanning nor showing an error.
   */
  lemma StartsCheckExactly(p: Policy, g: Gate, e: Event)
    requires Inv(p, g) && Enabled(p, g, e)
    ensures !g.checkInFlight && Step(p, g, e).checkInFlight <==>
      e == ScanPressed || e == RetryPressed
      || (e == Opened && p.autoStartOnOpen && !g.isScanning && g.error == None)
  {
  }

  /** A failed check sets its message, stops scanning and schedules nothing. */
  lemma FailureSetsMessage(p: Policy, g: Gate, o: Outcome)
    requires Inv(p, g) && Enabled(p, g, Settled(o)) && o != Verified
    ensures var h := Step(p, g, Settled(o));
      && h.error == Some(if o == Rejected then p.rejectedMessage else p.threwMessage)
      && !h.isScanning && !h.grantScheduled && !h.checkInFlight
  {
  }

  /** Once latched, no event starts another check and the gate stays latched. */
  lemma LatchedStays(p: Policy, g: Gate, e: Event)
    requires Inv(p, g) && Latched(g) && Enabled(p, g, e)
    ensures Latched(Step(p, g, e)) && Step(p, g, e).error == None
  {
  }

  /**
   * Reopening after an outcome does not start a check: after a failure the
   * error is still set, after a success the scanning flag is.
   */
  lemma ReopenAfterOutcome(p: Policy, g: Gate)
    requires Inv(p, g) && Enabled(p, g, Opened)
    requires g.error.Some? || Latched(g)
    ensures Step(p, g, Opened) == g.(isOpen := true)
  {
  }

  /** Closing while the timer is pending does not cancel it: the grant still fires. */
  lemma CloseKeepsScheduledGrant(p: Policy, g: Gate)
    requires Inv(p, g) && g.grantScheduled && Enabled(p, g, Closed)
    ensures var h := Step(p, g, Closed);
      !h.isOpen && h.grantScheduled && Enabled(p, h, TimerFired)
  {
  }

  /**
   * What every valid trace accounts for: at most one check succeeds, each
   * success is either granted already or has its timer pending, and after a
   * success the gate is latched.
   */
  lemma {:induction false} TraceAccount(p: Policy, t: seq<Event>)
    requires ValidTrace(p, t)
    ensures var g := Run(p, t);
      && Inv(p, g)
      && Count(t, Settled(Verified)) <= 1
      && Count(t, TimerFired) + (if g.grantScheduled then 1 else 0) == Count(t, Settled(Verified))
      && (Count(t, Settled(Verified)) == 1 ==> Latched(g))
  {
    if t != [] {
      var u := t[..|t| - 1];
      TraceAccount(p, u);
      var g := Run(p, u);
      StepPreservesInv(p, g, t[|t| - 1]);
      if Count(u, Settled(Verified)) == 1 {
        LatchedStays(p, g, t[|t| - 1]);
      }
    }
  }

  /** The success callback runs at most once, and only after a check that returned true. */
  lemma GrantAtMostOnce(p: Policy, t: seq<Event>)
    requires ValidTrace(p, t)
    ensures Count(t, TimerFired) <= Count(t, Settled(Verified)) <= 1
  {
    TraceAccount(p, t);
  }

  /** A valid trace extended by one enabled event. */
  lemma Then(p: Policy, t: seq<Event>, e: Event) returns (t': seq<Event>)
    requires ValidTrace(p, t) && Enabled(p, Run(p, t), e)
    ensures t' == t + [e] && ValidTrace(p, t') && Run(p, t') == Step(p, Run(p, t), e)
    ensures forall f :: Count(t', f) == Count(t, f) + (if e == f then 1 else 0)
  {
    t' := t + [e];
    assert t'[..|t'| - 1] == t;
  }
}
