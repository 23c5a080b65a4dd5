/**
 * One filtering pass (BluetoothManager.filterDevices): read the bonded devices,
 * keep those whose major class the configured category accepts, and tell the
 * listener about the result or about the fault that interrupted the pass.
 */
module Discovery {
  import opened Wrappers
  import opened FilterPolicy

  /**
   * A bonded device as the adapter reports it: its hardware address and the
   * major class read from its Bluetooth class, or None when the device has no
   * Bluetooth class to read (getBluetoothClass() returning null).
   */
  datatype Device = Device(address: string, majorClass: Option<MajorClass>)

  /** What a step of a pass can throw. */
  datatype Fault =
    | NullPointer            // a null adapter, a null bonded set, a null Bluetooth class
    | Security               // the Bluetooth permission is missing or was revoked
    | OtherFault(name: string)

  /** BluetoothException: it wraps either a cause or a message. */
  datatype BluetoothError = Wrapped(cause: Fault) | Message(text: string)

  /** One call into the listener's two entry points. */
  datatype Callback = Found(devices: set<Device>) | Error(error: BluetoothError)

  /** Every device whose class could be read. */
  predicate ClassesReadable(bonded: set<Device>) {
    forall d :: d in bonded ==> d.majorClass.Some?
  }

  /** The devices of the snapshot whose major class is one of the codes. */
  function Matching(bonded: set<Device>, codes: seq<int>): set<Device> {
    set d | d in bonded && d.majorClass.Some? && d.majorClass.value in codes
  }

  /**
   * What the filtering loop yields: the matching devices, or the fault raised
   * by the first device whose class cannot be read (the same fault for each).
   */
  function Filtered(bonded: set<Device>, codes: seq<int>): Result<set<Device>, Fault> {
    if ClassesReadable(bonded) then Ok(Matching(bonded, codes)) else Err(NullPointer)
  }

  /**
   * The loop of filterDevices: visit the bonded devices in an unspecified order
   * and add each one whose major class is among the codes to a fresh set. A
   * device without a readable class throws, which abandons the partial set.
   */
  method CollectMatching(bonded: set<Device>, codes: seq<int>) returns (r: Result<set<Device>, Fault>)
    ensures r.Err? <==> exists d :: d in bonded && d.majorClass.None?
    ensures r.Err? ==> r.error == NullPointer
    ensures r.Ok? ==> r.value <= bonded
    ensures r.Ok? ==> forall d :: d in bonded ==> (d in r.value <==> d.majorClass.value in codes)
    ensures r == Filtered(bonded, codes)
  {
    var remaining := bonded;
    var filtered: set<Device> := {};
    while remaining != {}
      invariant remaining <= bonded
      invariant forall d :: d in bonded && d !in remaining ==> d.majorClass.Some?
      invariant filtered == Matching(bonded - remaining, codes)
      decreases remaining
    {
      var d :| d in remaining;
      match d.majorClass {
        case None =>
          return Err(NullPointer);
        case Some(c) =>
          if c in codes {
            filtered := filtered + {d};
          }
      }
      remaining := remaining - {d};
    }
    assert bonded - remaining == bonded;
    r := Ok(filtered);
  }

  /**
   * The listener calls one pass makes, given the outcome of the bonded-device
   * query and the fault (if any) that onDevicesFound throws back. The category
   * is None when the service was built with a null one.
   *  - a failed query: one error wrapping its cause;
   *  - an empty snapshot: nothing at all;
   *  - a null category: getDeviceCode throws, one error wrapping the null-pointer fault;
   *  - an unreadable class: one error wrapping the null-pointer fault;
   *  - otherwise the matching set is delivered, and a fault thrown by the
   *    listener while receiving it comes back as an error as well.
   */
  function PassEvents(t: Option<DeviceType>, bonded: Result<set<Device>, Fault>, foundFault: Option<Fault>): (r: seq<Callback>)
    ensures |r| <= 2
    ensures r == [] <==> bonded == Ok({})
    ensures forall i :: 0 <= i < |r| && r[i].Found? ==>
              i == 0 && bonded.Ok? && r[i].devices <= bonded.value
    ensures forall i :: 0 <= i < |r| && r[i].Error? ==> r[i].error.Wrapped?
    ensures |r| == 2 ==> r[0].Found? && foundFault.Some? && r[1] == Error(Wrapped(foundFault.value))
  {
    match bonded
    case Err(f) => [Error(Wrapped(f))]
    case Ok(s) =>
      if |s| == 0 then []
      else if t.None? then [Error(Wrapped(NullPointer))]
      else
        match Filtered(s, DeviceCodes(t.value))
        case Err(f) => [Error(Wrapped(f))]
        case Ok(m) =>
          match foundFault
          case None => [Found(m)]
          case Some(f) => [Found(m), Error(Wrapped(f))]
  }

  /**
   * A service built with a null category never finds anything: every pass over
   * a non-empty snapshot ends in one wrapped null-pointer error.
   */
  lemma NullCategoryReportsError(bonded: Result<set<Device>, Fault>, foundFault: Option<Fault>)
    requires bonded.Ok? ==> bonded.value != {}
    ensures forall i :: 0 <= i < |PassEvents(None, bonded, foundFault)| ==>
              PassEvents(None, bonded, foundFault)[i].Error?
    ensures |PassEvents(None, bonded, foundFault)| == 1
  {
  }

  /** A pass over an empty snapshot calls neither entry point. */
  lemma EmptySnapshotIsSilent(t: DeviceType, foundFault: Option<Fault>)
    ensures PassEvents(Some(t), Ok({}), foundFault) == []
  {
  }

  /**
   * With no fault and a non-empty snapshot, exactly one Found call is
   * made, carrying exactly the bonded devices of the configured category; it is
   * made even when that set is empty.
   */
  lemma FoundIsExactFilter(t: DeviceType, s: set<Device>)
    requires s != {} && ClassesReadable(s)
    ensures |PassEvents(Some(t), Ok(s), None)| == 1
    ensures PassEvents(Some(t), Ok(s), None)[0].Found?
    ensures forall d :: d in PassEvents(Some(t), Ok(s), None)[0].devices <==>
              d in s && CategoryOf(d.majorClass.value) == Some(t)
  {
  }

  /** A failed bonded-device query yields one wrapped error and no Found call. */
  lemma FailedQueryReportsError(t: Option<DeviceType>, f: Fault, foundFault: Option<Fault>)
    ensures PassEvents(t, Err(f), foundFault) == [Error(Wrapped(f))]
  {
  }

  /**
   * A bonded device whose class cannot be read yields one wrapped error and no
   * Found call, whatever the other devices are.
   */
  lemma UnreadableClassReportsError(t: DeviceType, s: set<Device>, d: Device, foundFault: Option<Fault>)
    requires d in s && d.majorClass.None?
    ensures PassEvents(Some(t), Ok(s), foundFault) == [Error(Wrapped(NullPointer))]
  {
  }

  /**
   * A fault thrown by onDevicesFound is caught by the same handler: the pass
   * then makes two calls, the Found call followed by an error wrapping that fault.
   */
  lemma ListenerFaultIsReportedBack(t: DeviceType, s: set<Device>, f: Fault)
    requires s != {} && ClassesReadable(s)
    ensures PassEvents(Some(t), Ok(s), Some(f)) == [Found(Matching(s, DeviceCodes(t))), Error(Wrapped(f))]
  {
  }

  // Concrete snapshots for the scenarios below.
  const X := Device("00:00:00:00:00:01", Some(MajorComputer))
  const Y := Device("00:00:00:00:00:02", Some(MajorPhone))
  const P := Device("00:00:00:00:00:03", Some(MajorImaging))
  const Q := Device("00:00:00:00:00:04", Some(MajorPeripheral))
  const R := Device("00:00:00:00:00:05", Some(MajorComputer))

  /** Computer search over a computer and a phone: only the computer is found. */
  lemma ScenarioComputer()
    ensures PassEvents(Some(Computer), Ok({X, Y}), None) == [Found({X})]
  {
    assert Matching({X, Y}, DeviceCodes(Computer)) == {X};
  }

  /** Printer search over an imaging, a peripheral and a computer device. */
  lemma ScenarioPrinter()
    ensures PassEvents(Some(Printer), Ok({P, Q, R}), None) == [Found({P, Q})]
  {
    assert Matching({P, Q, R}, DeviceCodes(Printer)) == {P, Q};
  }

  /** Audio/video search over a snapshot with none of that class: an empty Found. */
  lemma ScenarioNoneMatching()
    ensures PassEvents(Some(AudioVideo), Ok({X, P}), None) == [Found({})]
  {
    assert Matching({X, P}, DeviceCodes(AudioVideo)) == {};
  }
}
