# Bluetooth device search, modelled in Dafny

The model covers the device-search service of the `bluetoothmanager` library. A
`BluetoothManager` is built for one device category (printer, computer,
audio/video). `searchForDevices` registers a broadcast receiver for four adapter
actions and runs one filtering pass at once. Every broadcast the receiver gets
runs another pass. A pass reads the bonded devices, keeps those whose Bluetooth
major device class belongs to the category, and hands the result, or the
exception that interrupted it, to the caller's `DeviceListener`. `stopSearch`
unregisters the stored receiver.

Files:

- `wrappers.dfy`: `Option` and `Result`.
- `filter_policy.dfy` (module `FilterPolicy`): the `DeviceType` enum, the major
  device class values and `getDeviceCode` as the total function `DeviceCodes`.
  `CategoryOf` is its reverse reading, from a class code to its category. The
  constants are the values of Android's `BluetoothClass.Device.Major`: the 5-bit
  major class of the Class of Device field from the Bluetooth SIG Assigned
  Numbers, placed in bits 8 to 12 (`0x0100` computer, `0x0400` audio/video,
  `0x0500` peripheral, `0x0600` imaging, ...).
- `discovery.dfy` (module `Discovery`): devices, faults, `BluetoothException`
  (a wrapped cause or a message) and the listener calls. `CollectMatching` is the
  loop of `filterDevices`, proved equal to the specification `Filtered`.
  `PassEvents` gives the exact list of listener calls one pass makes.
- `manager.dfy` (module `Manager`): the classes. `BluetoothManager` has the
  `deviceType` and `context` constants and the mutable `broadcastReceiver`
  field. `Receiver` is the anonymous `BroadcastReceiver`. `Listener` records
  the calls it receives. `Context` records `registerReceiver` and
  `unregisterReceiver` calls. `ActiveReceivers` says which receivers a history
  of such calls leaves registered.

Inputs from outside the service are parameters:

- a category passed as null to the constructor is `None`;
- the outcome of `getDefaultAdapter().getBondedDevices()` is a
  `Result<set<Device>, Fault>`;
- a device whose `getBluetoothClass()` is null has `majorClass == None`, and
  reading it throws a null-pointer fault; a readable class is a `MajorClass`,
  a value that masking with `0x1F00` can produce;
- what the listener's `onDevicesFound` throws is the listener's `foundFault`.

Behaviour of the code that the model keeps as it is:

- A pass can make two listener calls, not at most one. If `onDevicesFound`
  throws, the same `catch` reports that exception through `onError`
  (`ListenerFaultIsReportedBack`).
- `stopSearch` keeps the field set. Calling it again unregisters the same
  receiver a second time (`StopTwiceUnregistersTwice`).
- A second `searchForDevices` overwrites the field and does not unregister the
  first receiver, which stays registered (`RestartLeaksReceiver`).
- A pass never checks whether the search is still active.

## Model

| member | source | states |
|---|---|---|
| FilterPolicy.DeviceCodes | bluetoothmanager/src/main/java/com/zopsmart/bluetoothmanager/BluetoothManager.java:100-115 | every category gets a non-empty list of distinct major-class values, and the list holds exactly the codes whose category (by `CategoryOf`) is the requested one |
| FilterPolicy.CodesDisjoint | bluetoothmanager/src/main/java/com/zopsmart/bluetoothmanager/BluetoothManager.java:100-115 | a code accepted for one category is accepted for no other |
| FilterPolicy.UnmappedClassesMatchNothing | bluetoothmanager/src/main/java/com/zopsmart/bluetoothmanager/BluetoothManager.java:100-115 | misc, phone, networking, wearable, toy, health and uncategorised devices satisfy no category |
| Discovery.CollectMatching | bluetoothmanager/src/main/java/com/zopsmart/bluetoothmanager/BluetoothManager.java:73-78 | the loop fails, with a null-pointer fault, exactly when some bonded device has no readable class; otherwise it yields a subset of the bonded set holding exactly the devices whose class is among the codes; either way it equals `Filtered` |
| Discovery.PassEvents | bluetoothmanager/src/main/java/com/zopsmart/bluetoothmanager/BluetoothManager.java:67-83 | one pass makes at most two calls; it makes none exactly when the snapshot is empty (for a null category too, since the switch is reached only after the empty check); a Found call comes first, at most once, and carries a subset of the bonded set; every error wraps a cause; a second call is the error wrapping the listener's own fault |
| Discovery.EmptySnapshotIsSilent | bluetoothmanager/src/main/java/com/zopsmart/bluetoothmanager/BluetoothManager.java:69-71 | an empty bonded set gives neither a Found nor an Error call |
| Discovery.FoundIsExactFilter | bluetoothmanager/src/main/java/com/zopsmart/bluetoothmanager/BluetoothManager.java:72-79 | with no fault and a non-empty snapshot there is exactly one call, a Found whose set is exactly the bonded devices of the configured category (possibly empty) |
| Discovery.FailedQueryReportsError | bluetoothmanager/src/main/java/com/zopsmart/bluetoothmanager/BluetoothManager.java:68-82 | a failing bonded-device query gives one Error wrapping its cause and no Found |
| Discovery.UnreadableClassReportsError | bluetoothmanager/src/main/java/com/zopsmart/bluetoothmanager/BluetoothManager.java:74-82 | one device with no readable class gives one wrapped null-pointer Error and no Found |
| Discovery.ListenerFaultIsReportedBack | bluetoothmanager/src/main/java/com/zopsmart/bluetoothmanager/BluetoothManager.java:79-82 | an exception from onDevicesFound is caught too: Found is followed by an Error wrapping it |
| Discovery.NullCategoryReportsError | bluetoothmanager/src/main/java/com/zopsmart/bluetoothmanager/BluetoothManager.java:100-102 | a service built with a null category (the switch then throws) answers every pass over a non-empty snapshot with exactly one call, an error, and never with Found |
| Discovery.ScenarioComputer | bluetoothmanager/src/main/java/com/zopsmart/bluetoothmanager/BluetoothManager.java:67-83 | a computer search over a computer and a phone finds only the computer |
| Discovery.ScenarioPrinter | bluetoothmanager/src/main/java/com/zopsmart/bluetoothmanager/BluetoothManager.java:67-83 | a printer search over imaging, peripheral and computer devices finds the imaging and the peripheral device |
| Discovery.ScenarioNoneMatching | bluetoothmanager/src/main/java/com/zopsmart/bluetoothmanager/BluetoothManager.java:72-79 | a non-empty snapshot with nothing of the category still gives `Found({})` |
| Manager.ActiveIffLastRegistered | bluetoothmanager/src/main/java/com/zopsmart/bluetoothmanager/BluetoothManager.java:89-91 | a receiver is registered exactly when some call registered it and no later call concerned it |
| Manager.Listener.OnDevicesFound | bluetoothmanager/src/main/java/com/zopsmart/bluetoothmanager/BluetoothManager.java:128-129 | the Found call is recorded and the listener's fault, if any, comes back |
| Manager.Listener.OnError | bluetoothmanager/src/main/java/com/zopsmart/bluetoothmanager/BluetoothManager.java:128-131 | the Error call is recorded |
| Manager.Context.RegisterReceiver | bluetoothmanager/src/main/java/com/zopsmart/bluetoothmanager/BluetoothManager.java:57-57 | the register call is logged and its receiver becomes registered |
| Manager.Context.UnregisterReceiver | bluetoothmanager/src/main/java/com/zopsmart/bluetoothmanager/BluetoothManager.java:91-91 | the unregister call is logged and its receiver is no longer registered |
| Manager.Receiver.OnReceive | bluetoothmanager/src/main/java/com/zopsmart/bluetoothmanager/BluetoothManager.java:47-52 | whatever the action, a broadcast runs exactly one pass with the captured listener |
| Manager.BluetoothManager.constructor | bluetoothmanager/src/main/java/com/zopsmart/bluetoothmanager/BluetoothManager.java:34-37 | category (possibly null, as `None`) and context are fixed at construction; no receiver is stored |
| Manager.BluetoothManager.SearchForDevices | bluetoothmanager/src/main/java/com/zopsmart/bluetoothmanager/BluetoothManager.java:44-59 | a null listener throws the message error and changes neither the field nor the registrations; otherwise a fresh receiver holding the listener is stored, registered once for the four actions, and exactly one pass runs for that listener |
| Manager.BluetoothManager.FilterDevices | bluetoothmanager/src/main/java/com/zopsmart/bluetoothmanager/BluetoothManager.java:67-83 | the listener's log grows by exactly the calls `PassEvents` prescribes; the stored receiver and the registrations are unchanged |
| Manager.BluetoothManager.StopSearch | bluetoothmanager/src/main/java/com/zopsmart/bluetoothmanager/BluetoothManager.java:89-92 | with no stored receiver nothing changes; otherwise the stored receiver is unregistered and the field still holds it |
| Manager.RestartLeaksReceiver | bluetoothmanager/src/main/java/com/zopsmart/bluetoothmanager/BluetoothManager.java:47-57 | after two searches and a stop, the first receiver is still registered and no longer held by the service |
| Manager.StopTwiceUnregistersTwice | bluetoothmanager/src/main/java/com/zopsmart/bluetoothmanager/BluetoothManager.java:89-91 | two stops in a row unregister the same receiver twice, and the listener hears only the first pass |
| Manager.StopBeforeStart | bluetoothmanager/src/main/java/com/zopsmart/bluetoothmanager/BluetoothManager.java:89-91 | a stop before any search makes no call on the context |

## Left out

- Concurrency: a pass running on the broadcast thread while `stopSearch` runs. The model is sequential. It does not claim that nothing is delivered after a stop, and the code does not guarantee it.
- The Android framework: the adapter, the `Context` and the `IntentFilter` are abstract inputs or logs. The `IllegalArgumentException` that Android throws when a receiver is unregistered twice, or was never registered, is not modelled. The same goes for a failing `registerReceiver`.
- Manager.Receiver.OnReceive: intents are delivered whether or not the receiver is still registered, and the platform's filtering by action is not modelled.
- Manager.Listener: listeners never call back into the service. A Java listener may call `stopSearch` or `searchForDevices` from `onDevicesFound` or `onError`; that would unregister or replace the receiver in the middle of a pass. This is why `FilterDevices` can promise an unchanged field and context, and `SearchForDevices` an unchanged registration after its initial pass.
- Manager.Listener: `onDevicesFound` throws the same fault (or none) on every call. An `onError` that throws is not modelled; in the code that exception would escape `filterDevices`.
- FilterPolicy.DeviceCodes: takes a category that is present. A direct `getDeviceCode()` call on a service built with a null category throws; the model shows that exception only inside a pass (`NullCategoryReportsError`).
- HashSet iteration order. `BluetoothDevice.equals` compares addresses only, so a Java set never holds two devices with one address; a `set<Device>` here may hold two records with the same address and different classes.
- `MainActivity` (the demo screen and its 5-second delayed start) is not part of this model. `BluetoothException` appears only as the `BluetoothError` datatype.
