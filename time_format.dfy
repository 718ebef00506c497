/**
 * The two `formatTime` shapes of the vault's timers. `M:SS` is written out
 * twice in the source (the voice recorder's elapsed time and the folder
 * view's session clock); `MM:SS` once (the secure viewer's countdown).
 */
module TimeFormat {
  import opened Text

  /** `${mins}:${secs.toString().padStart(2, '0')}` with mins = floor(n / 60), secs = n % 60. */
  function MinSec(seconds: nat): string {
    NatToString(seconds / 60) + ":" + PadStart(NatToString(seconds % 60), 2, '0')
  }

  /** Both fields padded to at least two digits. */
  function PaddedMinSec(seconds: nat): string {
    PadStart(NatToString(seconds / 60), 2, '0') + ":" + PadStart(NatToString(seconds % 60), 2, '0')
  }

  /** A minutes field of digits, a colon, and a two-digit seconds field. */
  predicate IsClock(r: string) {
    |r| >= 4 && r[|r| - 3] == ':' && AllDigits(r[..|r| - 3]) && AllDigits(r[|r| - 2..])
  }

  function ClockMinutes(r: string): nat
    requires IsClock(r)
  {
    ParseDecimal(r[..|r| - 3])
  }

  function ClockSeconds(r: string): nat
    requires IsClock(r)
  {
    ParseDecimal(r[|r| - 2..])
  }

  /** The seconds field of a zero-padded remainder below 60. */
  lemma SecondsField(n: nat)
    ensures var p := PadStart(NatToString(n % 60), 2, '0');
      |p| == 2 && AllDigits(p) && ParseDecimal(p) == n % 60
  {
    NatToStringRoundTrip(n % 60);
    PadStartZeros(NatToString(n % 60), 2);
  }

  /** Joining a digit field and a two-digit field with a colon makes a clock of those fields. */
  lemma ClockOf(m: string, p: string)
    requires |m| >= 1 && AllDigits(m) && |p| == 2 && AllDigits(p)
    ensures IsClock(m + ":" + p)
    ensures ClockMinutes(m + ":" + p) == ParseDecimal(m)
    ensures ClockSeconds(m + ":" + p) == ParseDecimal(p)
  {
    var r := m + ":" + p;
    assert r[..|r| - 3] == m;
    assert r[|r| - 2..] == p;
  }

  /**
   * `M:SS` reads back as the same number of seconds: the minutes field is
   * the quotient by 60 without padding, the seconds field the remainder in
   * exactly two digits.
   */
  lemma {:induction false} MinSecRoundTrip(n: nat)
    ensures IsClock(MinSec(n))
    ensures ClockMinutes(MinSec(n)) == n / 60 && ClockSeconds(MinSec(n)) == n % 60
    ensures ClockMinutes(MinSec(n)) * 60 + ClockSeconds(MinSec(n)) == n
  {
    var m := NatToString(n / 60);
    var p := PadStart(NatToString(n % 60), 2, '0');
    SecondsField(n);
    NatToStringRoundTrip(n / 60);
    ClockOf(m, p);
    assert MinSec(n) == m + ":" + p;
  }

  /**
   * The unpadded minutes field starts with '0' only below a minute, and
   * below ten minutes `M:SS` has exactly four characters.
   */
  lemma MinSecShape(n: nat)
    ensures MinSec(n)[0] == '0' <==> n < 60
    ensures n < 600 ==> |MinSec(n)| == 4
  {
    var q := n / 60;
    var m := NatToString(q);
    var p := PadStart(NatToString(n % 60), 2, '0');
    assert MinSec(n) == m + ":" + p;
    assert MinSec(n)[0] == m[0];
    assert q == 0 <==> n < 60;
    if n < 600 {
      assert q < 10;
      assert |NatToString(n % 60)| <= 2;
    }
  }

  /** `MM:SS` reads back as the same number of seconds, with at least two minute digits. */
  lemma {:induction false} PaddedMinSecRoundTrip(n: nat)
    ensures IsClock(PaddedMinSec(n))
    ensures ClockMinutes(PaddedMinSec(n)) == n / 60 && ClockSeconds(PaddedMinSec(n)) == n % 60
    ensures ClockMinutes(PaddedMinSec(n)) * 60 + ClockSeconds(PaddedMinSec(n)) == n
    ensures |PaddedMinSec(n)| >= 5
    ensures n < 6000 ==> |PaddedMinSec(n)| == 5
  {
    SecondsField(n);
    NatToStringRoundTrip(n / 60);
    PadStartZeros(NatToString(n / 60), 2);
    ClockOf(PadStart(NatToString(n / 60), 2, '0'), PadStart(NatToString(n % 60), 2, '0'));
  }

  /** Two seconds of recording read "0:02". */
  lemma MinSecTwo()
    ensures MinSec(2) == "0:02"
  {
    assert 2 / 60 == 0 && 2 % 60 == 2;
    var m := NatToString(0);
    var p := PadStart(NatToString(2), 2, '0');
    assert m == "0";
    assert NatToString(2) == "2";
    assert p == PadStart("02", 2, '0') == "02";
    assert MinSec(2) == m + ":" + p;
  }

  /** The folder view's 299-second session reads "4:59". */
  lemma MinSecSession()
    ensures MinSec(299) == "4:59"
  {
    assert 299 / 60 == 4 && 299 % 60 == 59;
    var m := NatToString(4);
    var d := NatToString(59);
    assert m == "4";
    assert d == NatToString(5) + ['9'] == "59";
    var p := PadStart(d, 2, '0');
    assert p == "59";
    assert MinSec(299) == m + ":" + p;
  }

  /** The viewer's 59 seconds read "00:59". */
  lemma PaddedMinSecStart()
    ensures PaddedMinSec(59) == "00:59"
  {
    assert 59 / 60 == 0 && 59 % 60 == 59;
    assert NatToString(0) == "0";
    assert NatToString(59) == NatToString(5) + ['9'] == "59";
    assert PadStart("0", 2, '0') == "00";
    assert PadStart("59", 2, '0') == "59";
  }
}
