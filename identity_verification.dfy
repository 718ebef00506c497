/**
 * The identity modal (app/components/IdentityVerificationModal.tsx): the
 * gate in front of a file. Opening it starts a check unless one is running
 * or an error is showing; after a failure a retry button starts another.
 * A success calls `onVerified` 500 ms later.
 */
module IdentityVerification {
  import opened Wrappers
  import opened GateProtocol

  const RejectedMessage: string := "Verificación fallida. Intenta nuevamente."
  const ThrewMessage: string := "Error al verificar identidad."

  const P: Policy := Policy(
    rejectedMessage := RejectedMessage,
    threwMessage := ThrewMessage,
    hasScanButton := false,
    hasRetryButton := true,
    autoStartOnOpen := true,
    hasOpenProp := true)

  /** The status badge: while scanning, after a failure, or none. */
  function Badge(g: Gate): Option<string> {
    if g.isScanning then Some("Scanning Biometrics")
    else if g.error.Some? then Some("Verification Failed")
    else None
  }

  /** The failure badge shows exactly when an error is set, and no badge exactly when idle. */
  lemma BadgeShowsState(g: Gate)
    requires Inv(P, g)
    ensures Badge(g) == Some("Verification Failed") <==> g.error.Some?
    ensures Badge(g) == None <==> !g.isScanning && g.error == None
  {
  }

  /** A check starts exactly on an opening while idle, or on a retry. */
  lemma ChecksStartOnOpenOrRetry(g: Gate, e: Event)
    requires Inv(P, g) && Enabled(P, g, e)
    ensures !g.checkInFlight && Step(P, g, e).checkInFlight <==>
      e == RetryPressed || (e == Opened && !g.isScanning && g.error == None)
  {
    StartsCheckExactly(P, g, e);
  }

  /** Reopening after a failure or after a success starts nothing: the modal only becomes visible. */
  lemma ReopenDoesNotRestart(g: Gate)
    requires Inv(P, g) && Enabled(P, g, Opened)
    requires g.error.Some? || Latched(g)
    ensures Step(P, g, Opened) == g.(isOpen := true) && !Step(P, g, Opened).checkInFlight
  {
    ReopenAfterOutcome(P, g);
  }

  /** `onVerified` runs at most once, and only after a check that returned true. */
  lemma VerifiedOnlyAfterSuccess(t: seq<Event>)
    requires ValidTrace(P, t)
    ensures Count(t, TimerFired) <= Count(t, Settled(Verified)) <= 1
  {
    GrantAtMostOnce(P, t);
  }

  /** Open (which starts a check), fail, retry, succeed, fire: a failed first attempt can still be retried into a grant. */
  lemma RetryReachesGrant()
    ensures exists t :: ValidTrace(P, t) && Count(t, Settled(Rejected)) == 1 && Count(t, TimerFired) == 1
  {
    var t0: seq<Event> := [];
    var t1 := Then(P, t0, Opened);
    var t2 := Then(P, t1, Settled(Rejected));
    var t3 := Then(P, t2, RetryPressed);
    var t4 := Then(P, t3, Settled(Verified));
    var t5 := Then(P, t4, TimerFired);
    assert Count(t5, Settled(Rejected)) == 1 && Count(t5, TimerFired) == 1;
  }

  class IdentityVerificationModal {
    var isOpen: bool            // the `isOpen` prop
    var isScanning: bool
    var error: Option<string>
    var checkInFlight: bool     // `await checkBiometrics()` not yet settled
    var verifyScheduled: bool   // the 500 ms timer not yet fired

    function State(): Gate
      reads this
    {
      Gate(isOpen, isScanning, error, checkInFlight, verifyScheduled)
    }

    predicate Valid()
      reads this
    {
      Inv(P, State())
    }

    constructor ()
      ensures State() == Initial(P) && Valid()
    {
      isOpen := false;
      isScanning := false;
      error := None;
      checkInFlight := false;
      verifyScheduled := false;
    }

    /** `handleVerify` up to its `await`: scanning, no error, the check in flight. */
    method HandleVerify()
      requires Valid() && !isScanning
      modifies this
      ensures State() == Begin(old(State())) && Valid()
    {
      isScanning := true;
      error := None;
      checkInFlight := true;
    }

    /** The page sets `isOpen`, and the effect on `isOpen` starts a check when idle. */
    method Open()
      requires Valid() && Enabled(P, State(), Opened)
      modifies this
      ensures State() == Step(P, old(State()), Opened) && Valid()
      ensures checkInFlight && !old(checkInFlight) <==> !old(isScanning) && old(error) == None
    {
      isOpen := true;
      if isOpen && !isScanning && error == None {
        HandleVerify();
      }
    }

    /** `onClose`, from the backdrop or the cancel button, or the page after `onVerified`. */
    method Close()
      requires Valid() && Enabled(P, State(), Closed)
      modifies this
      ensures State() == Step(P, old(State()), Closed) && Valid()
    {
      isOpen := false;
    }

    /** The cancel button: also `onClose`, but disabled while scanning. */
    method PressCancel()
      requires Valid() && CancelEnabled(State())
      modifies this
      ensures State() == Step(P, old(State()), Closed) && Valid()
      ensures !old(isScanning)
    {
      Close();
    }

    /** The retry button, rendered only while an error is set. */
    method PressRetry()
      requires Valid() && Enabled(P, State(), RetryPressed)
      modifies this
      ensures State() == Step(P, old(State()), RetryPressed) && Valid()
      ensures isScanning && error == None && checkInFlight
    {
      HandleVerify();
    }

    /** The rest of `handleVerify` once the check returns `true`, `false` or throws. */
    method ResumeVerify(o: Outcome)
      requires Valid() && Enabled(P, State(), Settled(o))
      modifies this
      ensures State() == Step(P, old(State()), Settled(o)) && Valid()
      ensures o == Verified ==> verifyScheduled && isScanning && error == None
      ensures o == Rejected ==> !verifyScheduled && !isScanning && error == Some(RejectedMessage)
      ensures o == Threw ==> !verifyScheduled && !isScanning && error == Some(ThrewMessage)
    {
      checkInFlight := false;
      if o == Threw {
        error := Some(ThrewMessage);
        isScanning := false;
      } else if o == Verified {
        verifyScheduled := true;
      } else {
        error := Some(RejectedMessage);
        isScanning := false;
      }
    }

    /** The timer fires and calls `onVerified`; the scanning flag is left set. */
    method VerifyTimerFires()
      requires Valid() && Enabled(P, State(), TimerFired)
      modifies this
      ensures State() == Step(P, old(State()), TimerFired) && Valid()
      ensures isScanning
    {
      verifyScheduled := false;
    }
  }
}
