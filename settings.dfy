/**
 * The passcode settings and the data reset of the settings screen (SettingsScreen.tsx), over
 * the app's key-value storage.
 */
module Settings {
  import Passcode

  /** The storage keys the app writes. */
  const SavedLoansKey := "savedLoans"
  const PasscodeKey := "passcode"
  const ThemeKey := "theme"
  const CurrencyKey := "currency"
  const ScenariosKey := "prepaymentScenarios"

  /** The keys "Clear All Data" removes: every key the app writes. */
  const ClearedKeys: set<string> := {SavedLoansKey, PasscodeKey, ThemeKey, CurrencyKey, ScenariosKey}

  /** `!!(await AsyncStorage.getItem('passcode'))`: a passcode is stored and is not empty. */
  predicate HasPasscode(storage: map<string, string>)
    ensures PasscodeKey !in storage ==> !HasPasscode(storage)
    ensures HasPasscode(storage) ==> |storage[PasscodeKey]| >= 1
  {
    PasscodeKey in storage && storage[PasscodeKey] != ""
  }

  /**
   * How the storage operations of the settings screen move the switch: removing the passcode
   * key or clearing the app's keys leaves no passcode, and storing a code leaves one exactly
   * when the code is not empty.
   */
  lemma PasscodeKeyUpdates(storage: map<string, string>, code: string)
    ensures !HasPasscode(storage - {PasscodeKey})
    ensures !HasPasscode(storage - ClearedKeys)
    ensures HasPasscode(storage[PasscodeKey := code]) <==> code != ""
  {
  }

  /** How `savePasscode` ended. */
  datatype SaveOutcome = WrongLength | Mismatch | Saved

  /**
   * The checks of `savePasscode`, in order: both entries four characters long (only the
   * length is checked, not that they are digits), then equal.
   */
  function CheckEntries(newPasscode: string, confirmPasscode: string): (o: SaveOutcome)
    ensures o == Saved <==> |newPasscode| == Passcode.CodeLength && newPasscode == confirmPasscode
    ensures o == WrongLength <==> |newPasscode| != Passcode.CodeLength || |confirmPasscode| != Passcode.CodeLength
  {
    if |newPasscode| != Passcode.CodeLength || |confirmPasscode| != Passcode.CodeLength then WrongLength
    else if newPasscode != confirmPasscode then Mismatch
    else Saved
  }

  class SettingsScreen {
    /** The app's key-value storage (AsyncStorage). */
    var storage: map<string, string>
    var isPasscodeEnabled: bool
    var showPasscodeSetup: bool
    var newPasscode: string
    var confirmPasscode: string
    var showPasscodeTestModal: bool

    /** The switch shows whether a passcode is stored. */
    ghost predicate Consistent()
      reads this
    {
      isPasscodeEnabled <==> HasPasscode(storage)
    }

    /** The screen as mounted on `storage`: the dialogs closed, the entries empty, and the switch set by `checkPasscodeStatus`. */
    constructor(storage: map<string, string>)
      ensures Consistent()
      ensures this.storage == storage && isPasscodeEnabled == HasPasscode(storage) && !showPasscodeSetup
      ensures newPasscode == "" && confirmPasscode == "" && !showPasscodeTestModal
    {
      this.storage := storage;
      isPasscodeEnabled, showPasscodeSetup, showPasscodeTestModal := false, false, false;
      newPasscode, confirmPasscode := "", "";
      new;
      CheckPasscodeStatus();
    }

    /** `checkPasscodeStatus`: the switch is set from the storage. */
    method CheckPasscodeStatus()
      modifies this
      ensures Consistent()
      ensures isPasscodeEnabled == HasPasscode(storage)
      ensures storage == old(storage) && showPasscodeSetup == old(showPasscodeSetup)
      ensures newPasscode == old(newPasscode) && confirmPasscode == old(confirmPasscode)
      ensures showPasscodeTestModal == old(showPasscodeTestModal)
    {
      isPasscodeEnabled := HasPasscode(storage);
    }

    /**
     * `togglePasscode`: when enabled, the stored passcode is removed and protection turned
     * off; when disabled, only the setup dialog opens and the storage is left alone.
     */
    method TogglePasscode()
      requires Consistent()
      modifies this
      ensures Consistent()
      ensures old(isPasscodeEnabled) ==>
                storage == old(storage) - {PasscodeKey} && !isPasscodeEnabled
                && showPasscodeSetup == old(showPasscodeSetup)
      ensures !old(isPasscodeEnabled) ==>
                storage == old(storage) && !isPasscodeEnabled && showPasscodeSetup
      ensures newPasscode == old(newPasscode) && confirmPasscode == old(confirmPasscode)
      ensures showPasscodeTestModal == old(showPasscodeTestModal)
    {
      if isPasscodeEnabled {
        storage := storage - {PasscodeKey};
        isPasscodeEnabled := false;
      } else {
        showPasscodeSetup := true;
      }
    }

    /**
     * `savePasscode`: entries of the wrong length or that differ change nothing (an error
     * alert is shown). Otherwise the passcode is stored, protection is on, the setup dialog
     * closes with both entries cleared, and the test dialog opens.
     */
    method SavePasscode() returns (outcome: SaveOutcome)
      requires Consistent()
      modifies this
      ensures Consistent()
      ensures outcome == CheckEntries(old(newPasscode), old(confirmPasscode))
      ensures outcome != Saved ==>
                storage == old(storage) && isPasscodeEnabled == old(isPasscodeEnabled)
                && showPasscodeSetup == old(showPasscodeSetup) && newPasscode == old(newPasscode)
                && confirmPasscode == old(confirmPasscode) && showPasscodeTestModal == old(showPasscodeTestModal)
      ensures outcome == Saved ==>
                storage == old(storage)[PasscodeKey := old(newPasscode)] && isPasscodeEnabled
                && !showPasscodeSetup && newPasscode == "" && confirmPasscode == ""
                && showPasscodeTestModal
    {
      outcome := CheckEntries(newPasscode, confirmPasscode);
      if outcome != Saved {
        return;
      }
      storage := storage[PasscodeKey := newPasscode];
      isPasscodeEnabled := true;
      showPasscodeSetup := false;
      newPasscode, confirmPasscode := "", "";
      showPasscodeTestModal := true;
    }

    /** The setup dialog's Cancel: the dialog closes and both entries are cleared. */
    method CancelSetup()
      requires Consistent()
      modifies this
      ensures Consistent()
      ensures !showPasscodeSetup && newPasscode == "" && confirmPasscode == ""
      ensures storage == old(storage) && isPasscodeEnabled == old(isPasscodeEnabled)
      ensures showPasscodeTestModal == old(showPasscodeTestModal)
    {
      showPasscodeSetup := false;
      newPasscode, confirmPasscode := "", "";
    }

    /**
     * `clearAllData` once confirmed: the app's five keys are removed, every other key is kept,
     * and protection is off.
     */
    method ClearAllData()
      requires Consistent()
      modifies this
      ensures Consistent()
      ensures storage == old(storage) - ClearedKeys
      ensures forall k :: k in storage <==> k in old(storage) && k !in ClearedKeys
      ensures !isPasscodeEnabled
      ensures showPasscodeSetup == old(showPasscodeSetup) && newPasscode == old(newPasscode)
      ensures confirmPasscode == old(confirmPasscode) && showPasscodeTestModal == old(showPasscodeTestModal)
    {
      storage := storage - ClearedKeys;
      isPasscodeEnabled := false;
    }
  }
}
