/**
 * The PIN pad (app/components/PinPad.tsx): a buffer filled by the keypad
 * and handed to `onComplete` when it reaches four characters. Every key
 * but "C" is appended as its label, "Del" included.
 */
module PinPadModel {
  import opened Wrappers

  const Length: nat := 4

  /** The keypad's labels, in grid order. */
  const Keys: seq<string> := ["1", "2", "3", "4", "5", "6", "7", "8", "9", "C", "0", "Del"]

  predicate IsDigitKey(k: string) {
    |k| == 1 && '0' <= k[0] <= '9'
  }

  /**
   * `addDigit(n)` on buffer `digits`: the new buffer, and the string passed
   * to `onComplete` if the call completes the PIN.
   */
  function Add(digits: string, n: string): (r: (string, Option<string>))
    ensures |digits| >= Length ==> r == (digits, None)
    ensures |digits| < Length ==> r.0 == digits + n
    ensures r.1.Some? <==> |digits| < Length && |digits| + |n| == Length
    ensures r.1.Some? ==> r.1.value == r.0
  {
    if |digits| < Length then
      var newDigits := digits + n;
      (newDigits, if |newDigits| == Length then Some(newDigits) else None)
    else (digits, None)
  }

  /** A keypad button: "C" empties the buffer, every other label is passed to `addDigit`. */
  function Press(digits: string, key: string): (r: (string, Option<string>))
    ensures key == "C" ==> r == ("", None)
  {
    if key == "C" then ("", None) else Add(digits, key)
  }

  /** The buffer after pressing `keys` from `start`, and how many times `onComplete` ran. */
  function Feed(start: string, keys: seq<string>): (string, nat)
    decreases |keys|
  {
    if keys == [] then (start, 0)
    else
      var (d, c) := Feed(start, keys[..|keys| - 1]);
      var (d', done) := Press(d, keys[|keys| - 1]);
      (d', c + if done.Some? then 1 else 0)
  }

  /**
   * With digit keys only, from an empty buffer: the buffer holds one
   * character per key up to four and never more, and `onComplete` has run
   * once exactly when at least four keys were pressed, and never twice.
   */
  lemma {:induction false} DigitsOnly(keys: seq<string>)
    requires forall i :: 0 <= i < |keys| ==> IsDigitKey(keys[i])
    ensures |Feed("", keys).0| == if |keys| < Length then |keys| else Length
    ensures Feed("", keys).1 == if |keys| < Length then 0 else 1
    ensures Feed("", keys).1 == 1 ==> |Feed("", keys).0| == Length
  {
    if keys != [] {
      DigitsOnly(keys[..|keys| - 1]);
    }
  }

  /** Once the buffer holds four or more characters, no key but "C" changes it or completes. */
  lemma {:induction false} StuckUntilCleared(start: string, keys: seq<string>)
    requires |start| >= Length
    requires forall i :: 0 <= i < |keys| ==> keys[i] != "C"
    ensures Feed(start, keys) == (start, 0)
  {
    if keys != [] {
      StuckUntilCleared(start, keys[..|keys| - 1]);
    }
  }

  /** "Del" appends its three letters: "12" then "Del" is five characters, and the PIN can no longer complete. */
  lemma DelOverflows(keys: seq<string>)
    requires forall i :: 0 <= i < |keys| ==> keys[i] != "C"
    ensures Press("12", "Del") == ("12Del", None)
    ensures Feed("12Del", keys) == ("12Del", 0)
  {
    assert "12" + "Del" == "12Del";
    StuckUntilCleared("12Del", keys);
  }

  /** "C" always empties the buffer, so the pad can complete again after it. */
  lemma ClearRestarts(start: string, keys: seq<string>)
    ensures Feed(start, ["C"] + keys) == Feed("", keys)
  {
    FeedFrom(start, ["C"], keys);
  }

  /** Feeding a concatenation feeds the parts in turn. */
  lemma {:induction false} FeedFrom(start: string, a: seq<string>, b: seq<string>)
    ensures Feed(start, a + b).0 == Feed(Feed(start, a).0, b).0
    ensures Feed(start, a + b).1 == Feed(start, a).1 + Feed(Feed(start, a).0, b).1
  {
    if b == [] {
      assert a + b == a;
    } else {
      FeedFrom(start, a, b[..|b| - 1]);
      assert (a + b)[..|a + b| - 1] == a + b[..|b| - 1];
    }
  }

  class PinPad {
    var digits: string

    constructor ()
      ensures digits == ""
    {
      digits := "";
    }

    /** `addDigit(n)`: appends while below four characters; returns what `onComplete` receives, if it is called. */
    method AddDigit(n: string) returns (completed: Option<string>)
      modifies this
      ensures (digits, completed) == Add(old(digits), n)
    {
      completed := None;
      if |digits| < Length {
        var newDigits := digits + n;
        digits := newDigits;
        if |newDigits| == Length {
          completed := Some(newDigits);
        }
      }
    }

    /** A keypad button: "C" clears, every other label goes to `addDigit`. */
    method PressKey(key: string) returns (completed: Option<string>)
      requires key in Keys
      modifies this
      ensures (digits, completed) == Press(old(digits), key)
    {
      if key == "C" {
        digits := "";
        completed := None;
      } else {
        completed := AddDigit(key);
      }
    }
  }
}
