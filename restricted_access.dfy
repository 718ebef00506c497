/**
 * The restricted-folder modal (app/components/RestrictedAccessModal.tsx):
 * the gate in front of a folder. A check starts only from the scan button;
 * a success calls `onUnlock` 500 ms later.
 */
module RestrictedAccess {
  import opened Wrappers
  import opened GateProtocol

  const RejectedMessage: string := "Verificación fallida. Intenta nuevamente."
  const ThrewMessage: string := "Error al verificar identidad."

  const P: Policy := Policy(
    rejectedMessage := RejectedMessage,
    threwMessage := ThrewMessage,
    hasScanButton := true,
    hasRetryButton := false,
    autoStartOnOpen := false,
    hasOpenProp := true)

  const ScanningText: string := "Escaneando biometría..."
  const ReadyText: string := "Esta carpeta requiere autenticación secundaria para acceder a los archivos."

  /** The status line under the title. */
  function StatusLine(g: Gate): string {
    if g.isScanning then ScanningText
    else if g.error.Some? then g.error.value
    else ReadyText
  }

  /** The status line shows the error exactly when one is set, and the scanning text exactly while scanning. */
  lemma StatusLineShowsState(g: Gate)
    requires Inv(P, g)
    ensures StatusLine(g) == ScanningText <==> g.isScanning
    ensures g.error.Some? ==> StatusLine(g) == g.error.value
    ensures StatusLine(g) == ReadyText <==> !g.isScanning && g.error == None
  {
    if g.error.Some? {
      assert RejectedMessage[0] != ScanningText[0] && ThrewMessage[1] != ScanningText[1];
      assert |RejectedMessage| < |ReadyText| && |ThrewMessage| < |ReadyText|;
    }
  }

  /** The modal never starts a check when it opens: only the scan button does. */
  lemma ScanOnlyFromButton(g: Gate, e: Event)
    requires Inv(P, g) && Enabled(P, g, e)
    ensures !g.checkInFlight && Step(P, g, e).checkInFlight <==> e == ScanPressed
  {
    StartsCheckExactly(P, g, e);
  }

  /** `onUnlock` runs at most once, and only after a check that returned true. */
  lemma UnlockOnlyAfterSuccess(t: seq<Event>)
    requires ValidTrace(P, t)
    ensures Count(t, TimerFired) <= Count(t, Settled(Verified)) <= 1
  {
    GrantAtMostOnce(P, t);
  }

  /** Opened, scan, succeed, fire: the unlock is reachable. */
  lemma UnlockReachable()
    ensures exists t :: ValidTrace(P, t) && Count(t, TimerFired) == 1
  {
    var t0: seq<Event> := [];
    var t1 := Then(P, t0, Opened);
    var t2 := Then(P, t1, ScanPressed);
    var t3 := Then(P, t2, Settled(Verified));
    var t4 := Then(P, t3, TimerFired);
    assert Count(t4, TimerFired) == 1;
  }

  class RestrictedAccessModal {
    var isOpen: bool           // the `isOpen` prop
    var isScanning: bool
    var error: Option<string>
    var checkInFlight: bool    // `await checkBiometrics()` not yet settled
    var unlockScheduled: bool  // the 500 ms timer not yet fired

    function State(): Gate
      reads this
    {
      Gate(isOpen, isScanning, error, checkInFlight, unlockScheduled)
    }

    predicate Valid()
      reads this
    {
      Inv(P, State())
    }

    constructor ()
      ensures State() == Initial(P) && Valid()
    {
      isOpen := false;
      isScanning := false;
      error := None;
      checkInFlight := false;
      unlockScheduled := false;
    }

    /** The page sets `isOpen`; there is no effect on it. */
    method Open()
      requires Valid() && Enabled(P, State(), Opened)
      modifies this
      ensures State() == Step(P, old(State()), Opened) && Valid()
      ensures isOpen && isScanning == old(isScanning) && error == old(error)
    {
      isOpen := true;
      StepPreservesInv(P, old(State()), Opened);
    }

    /** `onClose` from the backdrop, which is never disabled, or from the page. */
    method Close()
      requires Valid() && Enabled(P, State(), Closed)
      modifies this
      ensures State() == Step(P, old(State()), Closed) && Valid()
    {
      isOpen := false;
      StepPreservesInv(P, old(State()), Closed);
    }

    /** The cancel button: also `onClose`, but disabled while scanning. */
    method PressCancel()
      requires Valid() && CancelEnabled(State())
      modifies this
      ensures State() == Step(P, old(State()), Closed) && Valid()
      ensures !old(isScanning)
    {
      Close();
    }

    /** `handleFaceIDScan` up to its `await`: scanning, no error, the check in flight. */
    method HandleFaceIDScan()
      requires Valid() && Enabled(P, State(), ScanPressed)
      modifies this
      ensures State() == Step(P, old(State()), ScanPressed) && Valid()
      ensures isScanning && error == None && checkInFlight
    {
      isScanning := true;
      error := None;
      checkInFlight := true;
      StepPreservesInv(P, old(State()), ScanPressed);
    }

    /** The rest of `handleFaceIDScan` once the check returns `true`, `false` or throws. */
    method ResumeScan(o: Outcome)
      requires Valid() && Enabled(P, State(), Settled(o))
      modifies this
      ensures State() == Step(P, old(State()), Settled(o)) && Valid()
      ensures o == Verified ==> unlockScheduled && isScanning && error == None
      ensures o == Rejected ==> !unlockScheduled && !isScanning && error == Some(RejectedMessage)
      ensures o == Threw ==> !unlockScheduled && !isScanning && error == Some(ThrewMessage)
    {
      checkInFlight := false;
      if o == Threw {
        error := Some(ThrewMessage);
        isScanning := false;
      } else if o == Verified {
        unlockScheduled := true;
      } else {
        error := Some(RejectedMessage);
        isScanning := false;
      }
      StepPreservesInv(P, old(State()), Settled(o));
    }

    /** The timer fires and calls `onUnlock`; the scanning flag is left set. */
    method UnlockTimerFires()
      requires Valid() && Enabled(P, State(), TimerFired)
      modifies this
      ensures State() == Step(P, old(State()), TimerFired) && Valid()
      ensures isScanning
    {
      unlockScheduled := false;
      StepPreservesInv(P, old(State()), TimerFired);
    }
  }
}
