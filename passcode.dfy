/**
 * The lock screen (PasscodeScreen.tsx): a buffer of at most four digits typed on the keypad,
 * checked against the stored passcode once it is full.
 */
module Passcode {
  import opened LoanTypes

  /** The length of a passcode. */
  const CodeLength: nat := 4

  /** What a keypad key sends: one decimal digit, as a string. */
  predicate IsDigitKey(key: string) {
    |key| == 1 && '0' <= key[0] <= '9'
  }

  /** `s.slice(0, -1)`: everything but the last character, and "" for "". */
  function DropLast(s: string): (r: string)
    ensures s == [] ==> r == []
    ensures s != [] ==> r + [s[|s| - 1]] == s
  {
    if s == [] then [] else s[..|s| - 1]
  }

  /** The buffer after a key press, and whether the press unlocked the app. */
  datatype PressResult = PressResult(buffer: string, unlocked: bool)

  /**
   * One press of a digit key on `buffer` against the stored code: ignored on a full buffer;
   * otherwise the digit is appended, and a buffer that reaches four digits unlocks when it
   * equals the stored code and is emptied when it does not.
   */
  function Press(buffer: string, stored: string, key: string): (r: PressResult)
    requires |buffer| <= CodeLength && IsDigitKey(key)
    ensures |r.buffer| <= CodeLength
    ensures r.unlocked ==> r.buffer == stored && |stored| == CodeLength
    ensures |buffer| == CodeLength ==> r == PressResult(buffer, false)
    ensures |buffer| < CodeLength - 1 ==> r == PressResult(buffer + key, false)
    ensures |buffer| == CodeLength - 1 ==>
              (r.unlocked <==> buffer + key == stored) && r.buffer == (if r.unlocked then stored else "")
  {
    if |buffer| < CodeLength then
      var newPasscode := buffer + key;
      if |newPasscode| == CodeLength then
        if newPasscode == stored then PressResult(newPasscode, true) else PressResult("", false)
      else PressResult(newPasscode, false)
    else PressResult(buffer, false)
  }

  predicate AllDigitKeys(keys: seq<string>) {
    forall i :: 0 <= i < |keys| ==> IsDigitKey(keys[i])
  }

  /** A run of key presses: the final buffer, and whether any press on the way unlocked. */
  function PressAll(buffer: string, stored: string, keys: seq<string>): (r: PressResult)
    requires |buffer| <= CodeLength && AllDigitKeys(keys)
    ensures |r.buffer| <= CodeLength
    decreases |keys|
  {
    if keys == [] then PressResult(buffer, false)
    else
      var first := Press(buffer, stored, keys[0]);
      var rest := PressAll(first.buffer, stored, keys[1..]);
      PressResult(rest.buffer, first.unlocked || rest.unlocked)
  }

  /** Whatever is typed, nothing unlocks unless a four-character code has been loaded. */
  lemma {:induction false} NoCodeNeverUnlocks(buffer: string, stored: string, keys: seq<string>)
    requires |buffer| <= CodeLength && AllDigitKeys(keys)
    requires |stored| != CodeLength
    ensures !PressAll(buffer, stored, keys).unlocked
    decreases |keys|
  {
    if keys != [] {
      NoCodeNeverUnlocks(Press(buffer, stored, keys[0]).buffer, stored, keys[1..]);
    }
  }

  /**
   * Four digits typed on an empty buffer decide the attempt: they unlock exactly when they
   * spell the stored code, and otherwise leave the buffer empty for the next attempt.
   */
  lemma FourPressesDecide(stored: string, keys: seq<string>)
    requires |keys| == CodeLength && AllDigitKeys(keys)
    ensures var r := PressAll("", stored, keys);
            && (r.unlocked <==> keys[0] + keys[1] + keys[2] + keys[3] == stored)
            && r.buffer == (if r.unlocked then stored else "")
  {
    var b1 := Press("", stored, keys[0]).buffer;
    var b2 := Press(b1, stored, keys[1]).buffer;
    var b3 := Press(b2, stored, keys[2]).buffer;
    assert b3 == keys[0] + keys[1] + keys[2];
    var last := Press(b3, stored, keys[3]);
    assert PressAll(last.buffer, stored, keys[3..][1..]) == PressResult(last.buffer, false);
    assert PressAll(b3, stored, keys[3..]) == last;
    assert keys[2..][1..] == keys[3..];
    assert PressAll(b2, stored, keys[2..]) == last;
    assert keys[1..][1..] == keys[2..];
    assert PressAll(b1, stored, keys[1..]) == last;
  }

  class PasscodeScreen {
    /** The digits typed so far. */
    var passcode: string
    /** The passcode loaded from storage; "" until one is loaded. */
    var storedPasscode: string

    ghost predicate Valid()
      reads this
    {
      |passcode| <= CodeLength
    }

    constructor()
      ensures Valid() && passcode == "" && storedPasscode == ""
    {
      passcode := "";
      storedPasscode := "";
    }

    /**
     * `loadPasscode`: `stored` is the `passcode` storage entry. Only a present, non-empty
     * entry replaces the code held by the screen.
     */
    method LoadPasscode(stored: Option<string>)
      requires Valid()
      modifies this
      ensures Valid()
      ensures passcode == old(passcode)
      ensures stored.Some? && stored.value != "" ==> storedPasscode == stored.value
      ensures stored.None? || stored == Some("") ==> storedPasscode == old(storedPasscode)
    {
      if stored.Some? && stored.value != "" {
        storedPasscode := stored.value;
      }
    }

    /**
     * `handleNumberPress`: a key pressed while the buffer is full is ignored; otherwise the
     * digit is appended, and a buffer that thereby reaches four digits either unlocks (it
     * equals the stored code) or is emptied again (it does not). `unlocked` is the call to
     * `onUnlock`.
     */
    method HandleNumberPress(key: string) returns (unlocked: bool)
      requires Valid() && IsDigitKey(key)
      modifies this
      ensures Valid()
      ensures storedPasscode == old(storedPasscode)
      ensures PressResult(passcode, unlocked) == Press(old(passcode), storedPasscode, key)
    {
      unlocked := false;
      if |passcode| < CodeLength {
        var newPasscode := passcode + key;
        passcode := newPasscode;
        if |newPasscode| == CodeLength {
          if newPasscode == storedPasscode {
            unlocked := true;
          } else {
            passcode := "";
          }
        }
      }
    }

    /** `handleDelete`: the last digit goes; an empty buffer stays empty. */
    method HandleDelete()
      requires Valid()
      modifies this
      ensures Valid()
      ensures passcode == DropLast(old(passcode))
      ensures |passcode| == if old(passcode) == "" then 0 else |old(passcode)| - 1
      ensures storedPasscode == old(storedPasscode)
    {
      passcode := DropLast(passcode);
    }
  }
}
