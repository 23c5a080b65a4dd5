/**
 * The filter policy: which Bluetooth major device classes satisfy a requested
 * device category (BluetoothManager.getDeviceCode and the DeviceType enum).
 */
module FilterPolicy {
  import opened Wrappers

  // Major Device Class values as Android's BluetoothClass.Device.Major reports
  // them: the 5-bit major class of the Bluetooth Class of Device field (Bluetooth
  // SIG Assigned Numbers, "Class of Device"), kept in bits 8 to 12.
  const MajorMisc: int := 0x0000
  const MajorComputer: int := 0x0100
  const MajorPhone: int := 0x0200
  const MajorNetworking: int := 0x0300
  const MajorAudioVideo: int := 0x0400
  const MajorPeripheral: int := 0x0500
  const MajorImaging: int := 0x0600
  const MajorWearable: int := 0x0700
  const MajorToy: int := 0x0800
  const MajorHealth: int := 0x0900
  const MajorUncategorized: int := 0x1F00

  /** A value that a major-class field can hold: bits 8 to 12 only. */
  predicate IsMajorClass(code: int) {
    0 <= code <= 0x1F00 && code % 0x100 == 0
  }

  /** What getMajorDeviceClass() can return: the class of device masked with 0x1F00. */
  type MajorClass = c: int | IsMajorClass(c)

  /** The closed set of categories a search can be configured with. */
  datatype DeviceType = Printer | Computer | AudioVideo

  /**
   * Reference reading of the policy, from the code's side: the category a major
   * class belongs to, if any.
   */
  function CategoryOf(code: int): Option<DeviceType> {
    if code == MajorImaging || code == MajorPeripheral then Some(Printer)
    else if code == MajorComputer then Some(Computer)
    else if code == MajorAudioVideo then Some(AudioVideo)
    else None
  }

  /**
   * The list getDeviceCode builds for a category. Every category yields at least
   * one code, every code is a major-class value, no code is listed twice, and the
   * list holds exactly the codes whose category is the requested one.
   */
  function DeviceCodes(t: DeviceType): (codes: seq<int>)
    ensures |codes| > 0
    ensures forall i :: 0 <= i < |codes| ==> IsMajorClass(codes[i])
    ensures forall i, j :: 0 <= i < j < |codes| ==> codes[i] != codes[j]
    ensures forall c :: c in codes <==> CategoryOf(c) == Some(t)
  {
    match t
    case Printer => [MajorImaging, MajorPeripheral]
    case Computer => [MajorComputer]
    case AudioVideo => [MajorAudioVideo]
  }

  /** Two different categories never accept the same major class. */
  lemma CodesDisjoint(s: DeviceType, t: DeviceType, c: int)
    requires s != t
    requires c in DeviceCodes(s)
    ensures c !in DeviceCodes(t)
  {
  }

  /** Phones, networking gear, wearables and the like satisfy no category. */
  lemma UnmappedClassesMatchNothing(t: DeviceType)
    ensures MajorMisc !in DeviceCodes(t) && MajorPhone !in DeviceCodes(t)
    ensures MajorNetworking !in DeviceCodes(t) && MajorWearable !in DeviceCodes(t)
    ensures MajorToy !in DeviceCodes(t) && MajorHealth !in DeviceCodes(t)
    ensures MajorUncategorized !in DeviceCodes(t)
  {
  }
}
