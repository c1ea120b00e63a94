/** The fingerprint screen (app/index.tsx): a three-state view over five pieces of
    component state, whose handlers validate a PIN, run the biometric prompt and write
    their results to the database. Every `await` of the sensor API becomes an input of
    the handler, and each handler runs to completion in one step. */
module App {
  import opened Firebase

  /** `type Screen = 'home' | 'changePin' | 'login'`. */
  datatype Screen = Home | ChangePin | Login

  /** `\d` in a regular expression without the `u` flag: the ASCII digits '0'..'9' only. */
  predicate IsAsciiDigit(u: CodeUnit)
  {
    0x30 <= u <= 0x39
  }

  /** `/^\d+$/.test(s)`: a digit, then either the end of the string or more of the run. */
  predicate MatchesDigitRun(s: JsString)
    ensures MatchesDigitRun(s) ==> |s| > 0 && IsAsciiDigit(s[0]) && IsAsciiDigit(s[|s| - 1])
  {
    |s| > 0 && IsAsciiDigit(s[0]) && (|s| == 1 || MatchesDigitRun(s[1..]))
  }

  /** The regular expression accepts exactly the non-empty all-digit strings. */
  lemma {:induction false} DigitRunIsAllDigits(s: JsString)
    ensures MatchesDigitRun(s) <==> |s| > 0 && forall i :: 0 <= i < |s| ==> IsAsciiDigit(s[i])
  {
    if |s| > 1 {
      DigitRunIsAllDigits(s[1..]);
      assert forall i :: 1 <= i < |s| ==> s[1..][i - 1] == s[i];
    }
  }

  /** Which guard of handleChangePin an input passes. */
  datatype PinVerdict = PinOk | WrongLength | NotDigits

  /** The two checks at the top of handleChangePin, length first, then the digit pattern. */
  function CheckPin(input: JsString): (v: PinVerdict)
    ensures v == WrongLength <==> |input| != 4
    ensures v == PinOk <==> |input| == 4 && forall i :: 0 <= i < 4 ==> IsAsciiDigit(input[i])
    ensures v == NotDigits <==> |input| == 4 && exists i :: 0 <= i < 4 && !IsAsciiDigit(input[i])
  {
    DigitRunIsAllDigits(input);
    if |input| != 4 then WrongLength
    else if !MatchesDigitRun(input) then NotDigits
    else PinOk
  }

  /** The modal the screen shows; every handler ends with exactly one of these. */
  datatype Alert =
    | PinLengthAlert                 // the PIN must have four digits
    | PinDigitsAlert                 // the PIN may contain digits only
    | PinSavedAlert
    | PinNotSavedAlert(cause: Fault)
    | SensorMissingAlert             // no usable fingerprint sensor
    | PinNotSetAlert                 // set a PIN first
    | FingerprintMatchedAlert        // the LED is being switched on
    | FingerprintRejectedAlert       // the LED stays off
    | ScanFailedAlert(cause: Fault)

  /** What the sensor probe at mount time reported: both answers, or an exception. */
  datatype SensorProbe = Probed(compatible: bool, enrolled: bool) | ProbeThrew

  /** What `authenticateAsync` resolved with, or the exception it raised. */
  datatype AuthResult = Authenticated(success: bool) | AuthThrew(fault: Fault)

  /** The buttons, one per `TouchableOpacity`, and the `TextInput` of the PIN screen. */
  datatype Control =
    | ChangePinButton   // home: go to the PIN screen
    | LoginButton       // home: go to the login screen
    | SavePinButton     // PIN screen: handleChangePin
    | CancelButton      // PIN screen: back to home
    | PinField          // PIN screen: the text field
    | ScanButton        // login screen: handleLogin
    | BackButton        // login screen: back to home

  /** The screen on which a control is rendered. */
  function ScreenOf(c: Control): Screen
  {
    match c
    case ChangePinButton => Home
    case LoginButton => Home
    case SavePinButton => ChangePin
    case CancelButton => ChangePin
    case PinField => ChangePin
    case ScanButton => Login
    case BackButton => Login
  }

  /** A control can be used when its screen is shown and its `disabled` (for the
      field: `!editable`) condition is false. */
  predicate Enabled(c: Control, screen: Screen, loading: bool, pinSet: bool, available: bool)
    ensures Enabled(c, screen, loading, pinSet, available) ==> screen == ScreenOf(c) && !loading
    ensures c.LoginButton? ==> (Enabled(c, screen, loading, pinSet, available) ==> pinSet)
    ensures c.ScanButton? ==> (Enabled(c, screen, loading, pinSet, available) ==> available)
  {
    match c
    case ChangePinButton => screen == Home && !loading
    case LoginButton => screen == Home && !(loading || !pinSet)
    case SavePinButton => screen == ChangePin && !loading
    case CancelButton => screen == ChangePin && !loading
    case PinField => screen == ChangePin && !loading
    case ScanButton => screen == Login && !(loading || !available)
    case BackButton => screen == Login && !loading
  }

  /** While a handler is in flight nothing on any screen can be used. */
  lemma NothingEnabledWhileLoading(c: Control, screen: Screen, pinSet: bool, available: bool)
    ensures !Enabled(c, screen, true, pinSet, available)
  {
  }

  /** The home screen's login button depends on the PIN flag and not on the sensor. */
  lemma LoginGateIgnoresSensor(screen: Screen, loading: bool, pinSet: bool, available: bool)
    ensures Enabled(LoginButton, screen, loading, pinSet, available) <==> screen == Home && !loading && pinSet
  {
  }

  /** The component's state. `db` is the module-level database object it writes to. */
  class FingerprintScreen {
    var isFingerprintAvailable: bool
    var loading: bool
    var pinSet: bool
    var pinInput: JsString
    var currentScreen: Screen
    const db: Database

    /** The `useState` initial values. */
    constructor (db: Database)
      ensures this.db == db
      ensures !isFingerprintAvailable && !loading && !pinSet
      ensures pinInput == [] && currentScreen == Home
    {
      this.db := db;
      isFingerprintAvailable := false;
      loading := false;
      pinSet := false;
      pinInput := [];
      currentScreen := Home;
    }

    predicate IsEnabled(c: Control)
      reads this
    {
      Enabled(c, currentScreen, loading, pinSet, isFingerprintAvailable)
    }

    /** checkFingerprintAvailability: the sensor counts as available when it is present
        and has a fingerprint enrolled; if either query throws, the flag keeps its value. */
    method CheckFingerprintAvailability(probe: SensorProbe)
      modifies this`isFingerprintAvailable
      ensures probe.Probed? ==> isFingerprintAvailable == (probe.compatible && probe.enrolled)
      ensures probe.ProbeThrew? ==> isFingerprintAvailable == old(isFingerprintAvailable)
    {
      match probe
      case Probed(compatible, enrolled) =>
        isFingerprintAvailable := compatible && enrolled;
      case ProbeThrew =>
    }

    /** The mount effect: probe the sensor, read `pin` once and set the PIN flag to the
        truthiness of what was stored. */
    method Initialize(probe: SensorProbe)
      modifies this`isFingerprintAvailable, this`pinSet
      ensures probe.Probed? ==> isFingerprintAvailable == (probe.compatible && probe.enrolled)
      ensures probe.ProbeThrew? ==> isFingerprintAvailable == old(isFingerprintAvailable)
      ensures pinSet == Truthy(Lookup(db.data, PinKey))
      ensures PinKey !in db.data || db.data[PinKey] == Str([]) ==> !pinSet
    {
      CheckFingerprintAvailability(probe);
      var storedPin := db.GetPinCode();
      pinSet := Truthy(storedPin);
    }

    /** handleChangePin. An input that fails a check raises its alert and changes nothing.
        A valid one is written to `pin` once; if the write succeeds the flag is set, the
        field cleared and the home screen shown, and if it fails the screen stays as it
        was. `loading` is false once the write has been tried. */
    method HandleChangePin(fault: Option<Fault>) returns (alert: Alert)
      modifies this`loading, this`pinSet, this`pinInput, this`currentScreen, db
      ensures CheckPin(old(pinInput)) == WrongLength ==> alert == PinLengthAlert
      ensures CheckPin(old(pinInput)) == NotDigits ==> alert == PinDigitsAlert
      ensures CheckPin(old(pinInput)) != PinOk ==>
        && db.data == old(db.data) && db.Log == old(db.Log)
        && loading == old(loading) && pinSet == old(pinSet)
        && pinInput == old(pinInput) && currentScreen == old(currentScreen)
      ensures CheckPin(old(pinInput)) == PinOk ==>
        && !loading
        && db.Log == old(db.Log) + [WriteAttempt(PinKey, Str(old(pinInput)), fault.None?)]
      ensures CheckPin(old(pinInput)) == PinOk && fault.None? ==>
        && db.data == Overwrite(old(db.data), PinKey, Str(old(pinInput)))
        && pinSet && pinInput == [] && currentScreen == Home
        && alert == PinSavedAlert
      ensures CheckPin(old(pinInput)) == PinOk && fault.Some? ==>
        && db.data == old(db.data)
        && pinSet == old(pinSet) && pinInput == old(pinInput) && currentScreen == old(currentScreen)
        && alert == PinNotSavedAlert(fault.value)
    {
      if |pinInput| != 4 {
        return PinLengthAlert;
      }
      if !MatchesDigitRun(pinInput) {
        return PinDigitsAlert;
      }
      loading := true;
      var r := db.SetPinCode(pinInput, fault);
      match r {
        case Pass =>
          pinSet := true;
          pinInput := [];
          currentScreen := Home;
          alert := PinSavedAlert;
        case Fail(f) =>
          alert := PinNotSavedAlert(f);
      }
      loading := false;
    }

    /** handleLogin. Without a sensor, and then without a PIN, it alerts and does nothing
        else. Otherwise it writes the biometric result to `fingerprint_verified` and then
        the LED code to `led/status`, and returns to the home screen whatever the result.
        An exception from the prompt or a write alerts, stops the flow before any later
        write and leaves the screen where it was. */
    method HandleLogin(auth: AuthResult, verifiedFault: Option<Fault>, ledFault: Option<Fault>)
      returns (alert: Alert)
      modifies this`loading, this`currentScreen, db
      ensures !old(isFingerprintAvailable) ==> alert == SensorMissingAlert
      ensures old(isFingerprintAvailable) && !old(pinSet) ==> alert == PinNotSetAlert
      ensures !old(isFingerprintAvailable && pinSet) ==>
        && db.data == old(db.data) && db.Log == old(db.Log)
        && loading == old(loading) && currentScreen == old(currentScreen)
      ensures old(isFingerprintAvailable && pinSet) ==> !loading
      ensures old(isFingerprintAvailable && pinSet) && auth.AuthThrew? ==>
        && db.data == old(db.data) && db.Log == old(db.Log)
        && currentScreen == old(currentScreen)
        && alert == ScanFailedAlert(auth.fault)
      ensures old(isFingerprintAvailable && pinSet) && auth.Authenticated? && verifiedFault.Some? ==>
        && db.data == old(db.data)
        && db.Log == old(db.Log) + [WriteAttempt(FingerprintKey, Bool(auth.success), false)]
        && currentScreen == old(currentScreen)
        && alert == ScanFailedAlert(verifiedFault.value)
      ensures old(isFingerprintAvailable && pinSet) && auth.Authenticated? && verifiedFault.None? && ledFault.Some? ==>
        && db.data == Overwrite(old(db.data), FingerprintKey, Bool(auth.success))
        && db.Log == old(db.Log) + [WriteAttempt(FingerprintKey, Bool(auth.success), true),
                                    WriteAttempt(LedKey, EncodeLed(auth.success), false)]
        && currentScreen == old(currentScreen)
        && alert == ScanFailedAlert(ledFault.value)
      ensures old(isFingerprintAvailable && pinSet) && auth.Authenticated? && verifiedFault.None? && ledFault.None? ==>
        && db.data == Overwrite(Overwrite(old(db.data), FingerprintKey, Bool(auth.success)), LedKey, EncodeLed(auth.success))
        && db.Log == old(db.Log) + [WriteAttempt(FingerprintKey, Bool(auth.success), true),
                                    WriteAttempt(LedKey, EncodeLed(auth.success), true)]
        && currentScreen == Home
        && alert == (if auth.success then FingerprintMatchedAlert else FingerprintRejectedAlert)
    {
      if !isFingerprintAvailable {
        return SensorMissingAlert;
      }
      if !pinSet {
        return PinNotSetAlert;
      }
      loading := true;
      match auth {
        case AuthThrew(f) =>
          alert := ScanFailedAlert(f);
        case Authenticated(isValid) =>
          var r := db.SetFingerprintVerified(isValid, verifiedFault);
          if r.Fail? {
            alert := ScanFailedAlert(r.fault);
          } else {
            if isValid {
              r := db.SetLedStatus(true, ledFault);
            } else {
              r := db.SetLedStatus(false, ledFault);
            }
            if r.Fail? {
              alert := ScanFailedAlert(r.fault);
            } else {
              alert := if isValid then FingerprintMatchedAlert else FingerprintRejectedAlert;
              currentScreen := Home;
            }
          }
      }
      loading := false;
    }

    /** Home screen, "change PIN": clear the field and show the PIN screen. */
    method PressChangePin()
      modifies this`pinInput, this`currentScreen
      ensures old(IsEnabled(ChangePinButton)) ==> pinInput == [] && currentScreen == ChangePin
      ensures !old(IsEnabled(ChangePinButton)) ==> pinInput == old(pinInput) && currentScreen == old(currentScreen)
    {
      if IsEnabled(ChangePinButton) {
        pinInput := [];
        currentScreen := ChangePin;
      }
    }

    /** Home screen, "log in": show the login screen. */
    method PressLogin()
      modifies this`currentScreen
      ensures old(IsEnabled(LoginButton)) ==> currentScreen == Login
      ensures !old(IsEnabled(LoginButton)) ==> currentScreen == old(currentScreen)
    {
      if IsEnabled(LoginButton) {
        currentScreen := Login;
      }
    }

    /** PIN screen, typing: `onChangeText={setPinInput}` while the field is editable. */
    method EditPinInput(text: JsString)
      modifies this`pinInput
      ensures old(IsEnabled(PinField)) ==> pinInput == text
      ensures !old(IsEnabled(PinField)) ==> pinInput == old(pinInput)
    {
      if IsEnabled(PinField) {
        pinInput := text;
      }
    }

    /** PIN screen, "save": run handleChangePin if the button is enabled. */
    method PressSavePin(fault: Option<Fault>) returns (alert: Option<Alert>)
      modifies this`loading, this`pinSet, this`pinInput, this`currentScreen, db
      ensures alert.Some? <==> old(IsEnabled(SavePinButton))
      ensures alert.None? ==>
        && db.data == old(db.data) && db.Log == old(db.Log)
        && loading == old(loading) && pinSet == old(pinSet)
        && pinInput == old(pinInput) && currentScreen == old(currentScreen)
      ensures alert.Some? && CheckPin(old(pinInput)) == PinOk && fault.None? ==>
        && db.data == Overwrite(old(db.data), PinKey, Str(old(pinInput)))
        && pinSet && pinInput == [] && currentScreen == Home && !loading
        && alert.value == PinSavedAlert
    {
      if IsEnabled(SavePinButton) {
        var a := HandleChangePin(fault);
        alert := Some(a);
      } else {
        alert := None;
      }
    }

    /** PIN screen, "cancel": clear the field and go home. */
    method PressCancel()
      modifies this`pinInput, this`currentScreen
      ensures old(IsEnabled(CancelButton)) ==> pinInput == [] && currentScreen == Home
      ensures !old(IsEnabled(CancelButton)) ==> pinInput == old(pinInput) && currentScreen == old(currentScreen)
    {
      if IsEnabled(CancelButton) {
        pinInput := [];
        currentScreen := Home;
      }
    }

    /** Login screen, "scan": run handleLogin if the button is enabled. */
    method PressScan(auth: AuthResult, verifiedFault: Option<Fault>, ledFault: Option<Fault>)
      returns (alert: Option<Alert>)
      modifies this`loading, this`currentScreen, db
      ensures alert.Some? <==> old(IsEnabled(ScanButton))
      ensures alert.None? ==>
        && db.data == old(db.data) && db.Log == old(db.Log)
        && loading == old(loading) && currentScreen == old(currentScreen)
      ensures alert.Some? && !old(pinSet) ==> alert.value == PinNotSetAlert && db.Log == old(db.Log)
      ensures alert.Some? && auth.Authenticated? && verifiedFault.None? && ledFault.None? && old(pinSet) ==>
        && db.data == Overwrite(Overwrite(old(db.data), FingerprintKey, Bool(auth.success)), LedKey, EncodeLed(auth.success))
        && currentScreen == Home && !loading
        && alert.value == (if auth.success then FingerprintMatchedAlert else FingerprintRejectedAlert)
    {
      if IsEnabled(ScanButton) {
        var a := HandleLogin(auth, verifiedFault, ledFault);
        alert := Some(a);
      } else {
        alert := None;
      }
    }

    /** Login screen, "back": go home. */
    method PressBack()
      modifies this`currentScreen
      ensures old(IsEnabled(BackButton)) ==> currentScreen == Home
      ensures !old(IsEnabled(BackButton)) ==> currentScreen == old(currentScreen)
    {
      if IsEnabled(BackButton) {
        currentScreen := Home;
      }
    }
  }

  /** The end-to-end run: set the PIN "1234", read it back, then log in with a
      fingerprint that does not match. The database then holds `false` and 0, the
      screen shows the failure and is back home. */
  method SetPinThenFailedLogin(db: Database) returns (read: Value, alert: Option<Alert>, screen: FingerprintScreen)
    modifies db
    ensures screen.currentScreen == Home && !screen.loading
    ensures read == Str([0x31, 0x32, 0x33, 0x34])
    ensures alert == Some(FingerprintRejectedAlert)
    ensures Lookup(db.data, FingerprintKey) == Bool(false)
    ensures Lookup(db.data, LedKey) == Num(0)
    ensures Lookup(db.data, PinKey) == Str([0x31, 0x32, 0x33, 0x34])
  {
    var pin: JsString := [0x31, 0x32, 0x33, 0x34];
    assert CheckPin(pin) == PinOk;
    screen := new FingerprintScreen(db);
    screen.CheckFingerprintAvailability(Probed(true, true));
    screen.PressChangePin();
    screen.EditPinInput(pin);
    assert screen.pinInput == pin && screen.IsEnabled(SavePinButton);
    var saved := screen.PressSavePin(None);
    assert Lookup(db.data, PinKey) == Str(pin);
    assert screen.pinSet && screen.currentScreen == Home && !screen.loading;
    read := db.GetPinCode();
    screen.PressLogin();
    assert screen.IsEnabled(ScanButton);
    ghost var before := db.data;
    alert := screen.PressScan(Authenticated(false), None, None);
    assert db.data == Overwrite(Overwrite(before, FingerprintKey, Bool(false)), LedKey, Num(0));
  }
}
