# Fingerprint screen and its database client, modelled in Dafny

The app is one mobile screen. It gates a fingerprint login behind a locally set
four-digit PIN. It writes the PIN, the result of each fingerprint check and a derived
LED signal (1 or 0) to a hosted realtime database, where a microcontroller reads the LED
signal. This project models the two parts of that app that carry logic.

- `firebase.dfy`, module `Firebase` (src/services/firebase.ts). The database is a
  class `Database` holding a map from the four paths the app uses (`pin`,
  `fingerprint_verified`, `led/status`, `esp32`) to JSON values. It also has a ghost
  log of every write attempted, in order. The three write wrappers each overwrite one
  path, or pass the SDK's rejection on unchanged. `GetPinCode` reads `pin` and has no
  failure path. The LED encoding `isOn ? 1 : 0` and its decoder `value === 1` form a
  round trip. The two listeners are modelled as functions from the stream of snapshots
  to the stream of callback arguments. The `esp32` listener forwards truthy values only.
- `app.dfy`, module `App` (app/index.tsx). The component is a class
  `FingerprintScreen` with its five state variables as fields and the database as a
  constant field. There is one method per handler and per button. The PIN check is a
  pure function. `length` counts UTF-16 code units, as in JavaScript, and `\d` is ASCII
  `0`-`9`. The biometric answers and every rejected database or sensor call are
  parameters. The modal each handler shows is returned as an `Alert` value.

## Model

| member | source | states |
|---|---|---|
| `Firebase.Overwrite` | src/services/firebase.ts:22 | after `set` the path reads back the written value, and every other path is present exactly when it was, with its old value |
| `Firebase.Truthy` | src/services/firebase.ts:79 | a stored value is falsy exactly when it is null, `false`, 0 or the empty string; every object is truthy |
| `Firebase.Lookup` | src/services/firebase.ts:35 | a read of a path yields the stored value, or null when the path holds nothing |
| `Firebase.EncodeLed` | src/services/firebase.ts:57 | the LED code is the number 0 or 1, and the listener's decoder turns it back into the boolean that was written |
| `Firebase.DecodeLed` | src/services/firebase.ts:70 | strict equality: no value other than a number decodes to on, and whatever decodes to on is truthy |
| `Firebase.LedLookalikesDecodeOff` | src/services/firebase.ts:68-71 | null, 0, 2, `true` and the string "1" all decode to off: only the number 1 is on |
| `Firebase.LedNotifications` | src/services/firebase.ts:66-72 | the LED callback gets one boolean per snapshot, in order, true exactly when the snapshot is the number 1 |
| `Firebase.LedStatusesReadBack` | src/services/firebase.ts:54-71 | a subscriber that sees every status written by setLedStatus is told exactly those statuses |
| `Firebase.ForwardEsp32` | src/services/firebase.ts:77-81 | a snapshot is forwarded exactly when it is truthy, and then unchanged |
| `Firebase.Esp32Deliveries` | src/services/firebase.ts:75-83 | the esp32 callback receives no more values than there were snapshots, and every value it receives is truthy |
| `Firebase.Esp32DeliversEveryTruthy` | src/services/firebase.ts:78-81 | every truthy snapshot reaches the esp32 callback |
| `Firebase.Esp32DeliversOnlySnapshots` | src/services/firebase.ts:78-81 | everything the esp32 callback receives was a snapshot |
| `Firebase.Esp32DeliveriesAppend` | src/services/firebase.ts:77-81 | the callbacks for a stream are those for its first part followed by those for the rest: one call per truthy snapshot, in snapshot order |
| `Firebase.Esp32DropsFalsy` | src/services/firebase.ts:79 | a stream of falsy or absent values never reaches the esp32 callback |
| `Firebase.Database.constructor` | src/services/firebase.ts:15-16 | the database starts with the given contents and no writes attempted |
| `Firebase.Database.Set` | src/services/firebase.ts:22 | a `set` call is logged as attempted; if it succeeds only its path changes, and if it is rejected nothing changes and the rejection is returned |
| `Firebase.Database.SetPinCode` | src/services/firebase.ts:19-28 | overwrites only `pin` with the string; a rejection leaves the data unchanged and is re-thrown to the caller |
| `Firebase.Database.GetPinCode` | src/services/firebase.ts:31-39 | always yields the value stored at `pin`, or null if there is none; it never fails |
| `Firebase.Database.SetFingerprintVerified` | src/services/firebase.ts:42-51 | overwrites only `fingerprint_verified` with the boolean; a rejection leaves the data unchanged and is re-thrown |
| `Firebase.Database.SetLedStatus` | src/services/firebase.ts:54-63 | overwrites only `led/status` with 1 for true and 0 for false; a rejection leaves the data unchanged and is re-thrown |
| `Firebase.PinRoundTrip` | src/services/firebase.ts:19-39 | a PIN written by setPinCode is what the next getPinCode yields, and no other path changes |
| `App.DigitRunIsAllDigits` | app/index.tsx:74 | `/^\d+$/` accepts a string exactly when it is non-empty and every code unit is an ASCII digit |
| `App.CheckPin` | app/index.tsx:69-77 | an input is refused for length exactly when it is not 4 code units long; it is accepted exactly when it is 4 ASCII digits; otherwise it is refused for a non-digit |
| `App.MatchesDigitRun` | app/index.tsx:74 | a string the anchored pattern accepts is non-empty and begins and ends with an ASCII digit; the full if-and-only-if is DigitRunIsAllDigits |
| `App.Enabled` | app/index.tsx:154-264 | a control is usable only on its own screen and only while nothing is loading; the login button also needs the PIN flag and the scan button the sensor flag |
| `App.NothingEnabledWhileLoading` | app/index.tsx:154-264 | while `loading` is true no button and no text field on any screen can be used |
| `App.LoginGateIgnoresSensor` | app/index.tsx:165-168 | the home screen's login button is usable exactly when nothing is loading and a PIN is set; sensor availability is not consulted there |
| `App.FingerprintScreen.constructor` | app/index.tsx:23-27 | the screen starts at home with no sensor, nothing loading, no PIN flag and an empty field |
| `App.FingerprintScreen.CheckFingerprintAvailability` | app/index.tsx:57-66 | the sensor is available exactly when it is present and enrolled; if a query throws, the flag keeps its value |
| `App.FingerprintScreen.Initialize` | app/index.tsx:29-36 | after mount the PIN flag is the truthiness of the stored PIN, so a missing or empty PIN leaves it false, and the sensor flag is set as above |
| `App.FingerprintScreen.HandleChangePin` | app/index.tsx:68-91 | a wrong length or a non-digit raises its alert and writes and changes nothing; a valid PIN is written to `pin` exactly once; on success the flag is set, the field cleared and home shown; on a rejected write flag, field and screen keep their values; `loading` is false after any write |
| `App.FingerprintScreen.HandleLogin` | app/index.tsx:93-132 | no sensor, then no PIN, each alert with no write; otherwise `fingerprint_verified` is written before `led/status`, a rejected first write means no LED write, any exception leaves the screen in place, and success returns home with the stored boolean and 1 or 0 whatever the fingerprint result |
| `App.FingerprintScreen.PressChangePin` | app/index.tsx:154-161 | when enabled the field is cleared and the PIN screen shown; when disabled nothing changes |
| `App.FingerprintScreen.PressLogin` | app/index.tsx:165-169 | when enabled the login screen is shown; when disabled nothing changes |
| `App.FingerprintScreen.EditPinInput` | app/index.tsx:196-205 | typing replaces the field's text only while the field is shown and editable |
| `App.FingerprintScreen.PressSavePin` | app/index.tsx:207-211 | the save button runs handleChangePin exactly when enabled; disabled, nothing changes; a valid PIN with a successful write is stored and home is shown |
| `App.FingerprintScreen.PressCancel` | app/index.tsx:219-226 | when enabled the field is cleared and home shown; when disabled nothing changes |
| `App.FingerprintScreen.PressScan` | app/index.tsx:245-253 | the scan button runs handleLogin exactly when enabled; disabled, nothing changes; with successful writes the database holds the result and its LED code and home is shown |
| `App.FingerprintScreen.PressBack` | app/index.tsx:261-265 | when enabled home is shown; when disabled nothing changes |
| `App.SetPinThenFailedLogin` | app/index.tsx:68-132 | setting the PIN "1234" and reading it back gives "1234"; a failed fingerprint then leaves `false` and 0 in the database, raises the failure alert, and the screen ends on home with nothing loading |

## Left out

- Rendering, styles and texts of the screen: only the `disabled`/`editable` conditions and the `onPress` transitions are modelled.
- Database initialisation and its environment configuration (src/services/firebase.ts:4-16): the `Database` constructor takes the initial contents instead.
- The biometric SDK (`hasHardwareAsync`, `isEnrolledAsync`, `authenticateAsync`) is foreign; its answers and exceptions are parameters (`SensorProbe`, `AuthResult`).
- Asynchrony: each handler runs to completion in one step. Button presses made while a handler awaits are not modelled, so `loading` is only true when a caller starts from such a state. The mount effect does not await the sensor probe; the model runs the probe first. The order does not matter because the two steps set different fields.
- Listener lifecycle (subscription, unsubscribe handle, cleanup on unmount) and the eventual delivery of snapshots are not modelled. The listeners are functions over the sequence of snapshots delivered. The screen's own LED callback only logs, so it is not modelled.
- Firebase.Database.GetPinCode: a read error leaves the source's promise pending forever; the model always returns the stored value.
- Alert texts and console logging: the alert is an `Alert` value, and the stringified error it shows is the `Fault` carried by the rejection.
- Numbers are integers only: JavaScript doubles, NaN and fractions are not modelled (`1.0 === 1`, so the LED decoder is unaffected).
- Paths are flat keys: a write to a parent such as `led` replacing the `led/status` child is not modelled, and no write here stores null.
- A rejected `set` is assumed to leave the stored data unchanged.
- `maxLength={4}` and the numeric keyboard are enforced by the native text field; `EditPinInput` accepts any text, and handleChangePin guards the length itself.
- The login button on the home screen is gated on `loading` and the PIN flag only (app/index.tsx:168). The sensor is not checked at this gate; handleLogin checks it (app/index.tsx:94).
- App.FingerprintScreen.PressSavePin: states the disabled path and the successful save only; every other path is that of HandleChangePin, which it calls unchanged.
- App.FingerprintScreen.PressScan: states the disabled path, the missing-PIN path and the successful writes only; every other path is that of HandleLogin, which it calls unchanged.
- Storing the PIN in plaintext is a security concern, not a behaviour, and is not modelled.
