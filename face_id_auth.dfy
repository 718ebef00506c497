/**
 * The Face ID screen (app/components/FaceIDAuth.tsx): the gate in front of
 * the whole vault. It is shown for as long as it is mounted, a check starts
 * only from its button, and a success calls `onAuthenticate` 500 ms later.
 * Its CANCELAR button has no handler.
 */
module FaceID {
  import opened Wrappers
  import opened GateProtocol

  const RejectedMessage: string := "Autenticación fallida. Intenta nuevamente."
  const ThrewMessage: string := "Error al acceder a la autenticación biométrica."

  const P: Policy := Policy(
    rejectedMessage := RejectedMessage,
    threwMessage := ThrewMessage,
    hasScanButton := true,
    hasRetryButton := false,
    autoStartOnOpen := false,
    hasOpenProp := false)

  const AuthenticatingText: string := "Verificando identidad..."
  const ReadyText: string := "Toca para autenticar"

  /** The status line under "Face ID". */
  function StatusLine(g: Gate): string {
    if g.isScanning then AuthenticatingText
    else if g.error.Some? then g.error.value
    else ReadyText
  }

  /** The label of the biometric button. */
  function ButtonLabel(g: Gate): string {
    if g.isScanning then "Autenticando..." else "Usar Autenticación Biométrica"
  }

  /** The status line shows the error exactly when one is set, and the progress text exactly while authenticating. */
  lemma StatusLineShowsState(g: Gate)
    requires Inv(P, g)
    ensures StatusLine(g) == AuthenticatingText <==> g.isScanning
    ensures g.error.Some? ==> StatusLine(g) == g.error.value
    ensures StatusLine(g) == ReadyText <==> !g.isScanning && g.error == None
  {
    if g.error.Some? {
      assert |AuthenticatingText| < |RejectedMessage| && |AuthenticatingText| < |ThrewMessage|;
      assert |ReadyText| < |RejectedMessage| && |ReadyText| < |ThrewMessage|;
    }
  }

  /**
   * The only events are the button, the check settling and the timer: the
   * screen never closes itself and CANCELAR raises nothing.
   */
  lemma OnlyTheButtonActs(g: Gate, e: Event)
    requires Inv(P, g) && Enabled(P, g, e)
    ensures e == ScanPressed || e.Settled? || e == TimerFired
    ensures Step(P, g, e).isOpen
  {
  }

  /** `onAuthenticate` runs at most once, and only after a check that returned true. */
  lemma AuthenticateOnlyAfterSuccess(t: seq<Event>)
    requires ValidTrace(P, t)
    ensures Count(t, TimerFired) <= Count(t, Settled(Verified)) <= 1
  {
    GrantAtMostOnce(P, t);
  }

  /** Press, fail, press again, succeed, fire: the button can be pressed again after a failure. */
  lemma SecondAttemptReachesGrant()
    ensures exists t :: ValidTrace(P, t) && Count(t, ScanPressed) == 2 && Count(t, TimerFired) == 1
  {
    var t0: seq<Event> := [];
    var t1 := Then(P, t0, ScanPressed);
    var t2 := Then(P, t1, Settled(Threw));
    var t3 := Then(P, t2, ScanPressed);
    var t4 := Then(P, t3, Settled(Verified));
    var t5 := Then(P, t4, TimerFired);
    assert Count(t5, ScanPressed) == 2 && Count(t5, TimerFired) == 1;
  }

  class FaceIDAuth {
    var isAuthenticating: bool
    var error: Option<string>
    var checkInFlight: bool          // `await checkBiometrics()` not yet settled
    var authenticateScheduled: bool  // the 500 ms timer not yet fired

    function State(): Gate
      reads this
    {
      Gate(true, isAuthenticating, error, checkInFlight, authenticateScheduled)
    }

    predicate Valid()
      reads this
    {
      Inv(P, State())
    }

    constructor ()
      ensures State() == Initial(P) && Valid()
    {
      isAuthenticating := false;
      error := None;
      checkInFlight := false;
      authenticateScheduled := false;
    }

    /** `handleBiometricAuth` up to its `await`, from the button that is disabled while authenticating. */
    method HandleBiometricAuth()
      requires Valid() && Enabled(P, State(), ScanPressed)
      modifies this
      ensures State() == Step(P, old(State()), ScanPressed) && Valid()
      ensures isAuthenticating && error == None && checkInFlight
    {
      isAuthenticating := true;
      error := None;
      checkInFlight := true;
    }

    /** The rest of `handleBiometricAuth` once the check returns `true`, `false` or throws. */
    method ResumeAuth(o: Outcome)
      requires Valid() && Enabled(P, State(), Settled(o))
      modifies this
      ensures State() == Step(P, old(State()), Settled(o)) && Valid()
      ensures o == Verified ==> authenticateScheduled && isAuthenticating && error == None
      ensures o == Rejected ==> !authenticateScheduled && !isAuthenticating && error == Some(RejectedMessage)
      ensures o == Threw ==> !authenticateScheduled && !isAuthenticating && error == Some(ThrewMessage)
    {
      checkInFlight := false;
      if o == Threw {
        error := Some(ThrewMessage);
        isAuthenticating := false;
      } else if o == Verified {
        authenticateScheduled := true;
      } else {
        error := Some(RejectedMessage);
        isAuthenticating := false;
      }
    }

    /** The timer fires and calls `onAuthenticate`; `isAuthenticating` is left set. */
    method AuthenticateTimerFires()
      requires Valid() && Enabled(P, State(), TimerFired)
      modifies this
      ensures State() == Step(P, old(State()), TimerFired) && Valid()
      ensures isAuthenticating
    {
      authenticateScheduled := false;
    }
  }
}
