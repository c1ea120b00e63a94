/** The app's client of the hosted realtime database (src/services/firebase.ts).
    The database is seen as a flat map from the four paths the app uses to the JSON
    values stored there; the SDK's network calls become updates of that map, and a
    rejected call is an input of the operation. */
module Firebase {

  datatype Option<+T> = None | Some(value: T)

  /** One UTF-16 code unit. JavaScript strings are sequences of these, and
      `length` counts them. */
  newtype CodeUnit = u: int | 0 <= u < 0x1_0000

  type JsString = seq<CodeUnit>

  /** A value as `snapshot.val()` returns it. */
  datatype Value =
    | Null                                // nothing stored at the path
    | Bool(b: bool)
    | Num(n: int)                         // only integral numbers are modelled
    | Str(s: JsString)
    | Tree(children: map<string, Value>)  // a JSON object

  /** JavaScript truthiness of a stored value, as `!!v` and `if (v)` test it. */
  predicate Truthy(v: Value)
    ensures !Truthy(v) <==> v in {Null, Bool(false), Num(0), Str([])}
  {
    match v
    case Null => false
    case Bool(b) => b
    case Num(n) => n != 0
    case Str(s) => s != []
    case Tree(_) => true
  }

  const PinKey: string := "pin"
  const FingerprintKey: string := "fingerprint_verified"
  const LedKey: string := "led/status"
  const Esp32Key: string := "esp32"

  /** What a read of `key` yields: the stored value, or null when nothing is there. */
  function Lookup(data: map<string, Value>, key: string): (v: Value)
    ensures key in data ==> v == data[key]
    ensures key !in data ==> v == Null
  {
    if key in data then data[key] else Null
  }

  /** The effect of `set(ref(database, key), v)`: `key` now holds `v`, and every
      other key is present exactly when it was, with the value it had. */
  function Overwrite(data: map<string, Value>, key: string, v: Value): (d: map<string, Value>)
    ensures Lookup(d, key) == v
    ensures forall k :: k != key ==> (k in d <==> k in data)
    ensures forall k :: k != key && k in data ==> d[k] == data[k]
  {
    data[key := v]
  }

  /** `isOn ? 1 : 0`, the number setLedStatus stores; the listener reads it back. */
  function EncodeLed(isOn: bool): (v: Value)
    ensures v == Num(0) || v == Num(1)
    ensures DecodeLed(v) == isOn
  {
    if isOn then Num(1) else Num(0)
  }

  /** `value === 1`: strict equality, so only the number one reads as "on". */
  predicate DecodeLed(v: Value)
    ensures !v.Num? ==> !DecodeLed(v)
    ensures DecodeLed(v) ==> Truthy(v)
  {
    v == Num(1)
  }

  /** Values that look like "on" to a loose reader, and the empty path, all decode to off. */
  lemma LedLookalikesDecodeOff()
    ensures !DecodeLed(Null)
    ensures !DecodeLed(Num(0))
    ensures !DecodeLed(Bool(true))
    ensures !DecodeLed(Str([0x31]))
    ensures !DecodeLed(Num(2))
  {
  }

  /** The arguments that the `listenToLedStatus` callback receives, one per snapshot
      of `led/status`, in delivery order. */
  function LedNotifications(snapshots: seq<Value>): (calls: seq<bool>)
    ensures |calls| == |snapshots|
    ensures forall i :: 0 <= i < |snapshots| ==> calls[i] == (snapshots[i] == EncodeLed(true))
  {
    if snapshots == [] then [] else [DecodeLed(snapshots[0])] + LedNotifications(snapshots[1..])
  }

  /** A subscriber that sees every value written by setLedStatus is told exactly the
      statuses that were written. */
  lemma LedStatusesReadBack(statuses: seq<bool>)
    ensures LedNotifications(seq(|statuses|, i requires 0 <= i < |statuses| => EncodeLed(statuses[i]))) == statuses
  {
  }

  /** The body of the `listenToESP32Data` callback wrapper: forward the value only if truthy. */
  function ForwardEsp32(v: Value): (r: Option<Value>)
    ensures r.Some? <==> Truthy(v)
    ensures r.Some? ==> r.value == v
  {
    if Truthy(v) then Some(v) else None
  }

  /** The values that reach the `listenToESP32Data` callback, for successive snapshots of `esp32`. */
  function Esp32Deliveries(snapshots: seq<Value>): (calls: seq<Value>)
    ensures |calls| <= |snapshots|
    ensures forall j :: 0 <= j < |calls| ==> Truthy(calls[j])
  {
    if snapshots == [] then []
    else
      match ForwardEsp32(snapshots[0])
      case Some(v) => [v] + Esp32Deliveries(snapshots[1..])
      case None => Esp32Deliveries(snapshots[1..])
  }

  /** No truthy snapshot is dropped. */
  lemma {:induction false} Esp32DeliversEveryTruthy(snapshots: seq<Value>, i: nat)
    requires i < |snapshots| && Truthy(snapshots[i])
    ensures snapshots[i] in Esp32Deliveries(snapshots)
  {
    if i > 0 {
      Esp32DeliversEveryTruthy(snapshots[1..], i - 1);
    }
  }

  /** Nothing is delivered that was not a snapshot. */
  lemma {:induction false} Esp32DeliversOnlySnapshots(snapshots: seq<Value>, v: Value)
    requires v in Esp32Deliveries(snapshots)
    ensures v in snapshots
  {
    if snapshots != [] && v != snapshots[0] {
      Esp32DeliversOnlySnapshots(snapshots[1..], v);
    }
  }

  /** Deliveries follow the snapshots: the callbacks for a stream are those for its first
      part followed by those for the rest, so each truthy snapshot is delivered once, in
      its place. */
  lemma {:induction false} Esp32DeliveriesAppend(a: seq<Value>, b: seq<Value>)
    ensures Esp32Deliveries(a + b) == Esp32Deliveries(a) + Esp32Deliveries(b)
  {
    if a == [] {
      assert a + b == b;
    } else {
      assert (a + b)[1..] == a[1..] + b;
      Esp32DeliveriesAppend(a[1..], b);
    }
  }

  /** A stream of falsy or absent values never reaches the callback. */
  lemma {:induction false} Esp32DropsFalsy(snapshots: seq<Value>)
    requires forall i :: 0 <= i < |snapshots| ==> !Truthy(snapshots[i])
    ensures Esp32Deliveries(snapshots) == []
  {
    if snapshots != [] {
      Esp32DropsFalsy(snapshots[1..]);
    }
  }

  /** The failure a rejected SDK call carries; the app only shows it as text. */
  datatype Fault = Fault(message: string)

  datatype Outcome = Pass | Fail(fault: Fault)

  /** One call of `set`, in the order made: where, what, and whether the database took it. */
  datatype WriteAttempt = WriteAttempt(key: string, value: Value, stored: bool)

  /** The shared database object. `data` is what is stored; `Log` records every write
      the app attempts, so that order and count of writes can be stated. */
  class Database {
    var data: map<string, Value>
    ghost var Log: seq<WriteAttempt>

    constructor (initial: map<string, Value>)
      ensures data == initial && Log == []
    {
      data := initial;
      Log := [];
    }

    /** `await set(ref(database, key), v)`. A rejection (`fault`) leaves the data as it
        was and is passed on to the caller. */
    method Set(key: string, v: Value, fault: Option<Fault>) returns (r: Outcome)
      modifies this
      ensures r == (if fault.Some? then Fail(fault.value) else Pass)
      ensures data == (if fault.Some? then old(data) else Overwrite(old(data), key, v))
      ensures Log == old(Log) + [WriteAttempt(key, v, fault.None?)]
    {
      Log := Log + [WriteAttempt(key, v, fault.None?)];
      match fault
      case Some(f) =>
        r := Fail(f);
      case None =>
        data := data[key := v];
        r := Pass;
    }

    /** setPinCode: overwrite `pin` with the string; re-throw a rejection. */
    method SetPinCode(pin: JsString, fault: Option<Fault>) returns (r: Outcome)
      modifies this
      ensures r == (if fault.Some? then Fail(fault.value) else Pass)
      ensures data == (if fault.Some? then old(data) else Overwrite(old(data), PinKey, Str(pin)))
      ensures Log == old(Log) + [WriteAttempt(PinKey, Str(pin), fault.None?)]
    {
      r := Set(PinKey, Str(pin), fault);
    }

    /** getPinCode: read `pin` once. It has no failure path: it yields what is stored,
        or null. */
    method GetPinCode() returns (v: Value)
      ensures PinKey in data ==> v == data[PinKey]
      ensures PinKey !in data ==> v == Null
    {
      v := Lookup(data, PinKey);
    }

    /** setFingerprintVerified: overwrite `fingerprint_verified` with the boolean; re-throw a rejection. */
    method SetFingerprintVerified(verified: bool, fault: Option<Fault>) returns (r: Outcome)
      modifies this
      ensures r == (if fault.Some? then Fail(fault.value) else Pass)
      ensures data == (if fault.Some? then old(data) else Overwrite(old(data), FingerprintKey, Bool(verified)))
      ensures Log == old(Log) + [WriteAttempt(FingerprintKey, Bool(verified), fault.None?)]
    {
      r := Set(FingerprintKey, Bool(verified), fault);
    }

    /** setLedStatus: overwrite `led/status` with 1 or 0; re-throw a rejection. */
    method SetLedStatus(isOn: bool, fault: Option<Fault>) returns (r: Outcome)
      modifies this
      ensures r == (if fault.Some? then Fail(fault.value) else Pass)
      ensures data == (if fault.Some? then old(data) else Overwrite(old(data), LedKey, EncodeLed(isOn)))
      ensures Log == old(Log) + [WriteAttempt(LedKey, EncodeLed(isOn), fault.None?)]
    {
      r := Set(LedKey, if isOn then Num(1) else Num(0), fault);
    }
  }

  /** A PIN written by setPinCode is what the next getPinCode yields, and the write
      leaves the other three paths alone. */
  method PinRoundTrip(db: Database, pin: JsString) returns (read: Value)
    modifies db
    ensures read == Str(pin)
    ensures forall k :: k != PinKey ==> Lookup(db.data, k) == Lookup(old(db.data), k)
  {
    var r := db.SetPinCode(pin, None);
    read := db.GetPinCode();
  }
}
