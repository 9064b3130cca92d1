# Headphones detection: route classification rules

A Dafny model of the route-classification core of the Flutter plugin
`headphones_detection` (Android in Kotlin, iOS in Swift). Each rule turns a
snapshot of platform state into a route string or a headphone record:

- **Android `HeadphonesDetectionPlugin`** (module `AndroidHeadphones`):
  `getHeadphonesInfo` scans the output device list and takes the first
  headphone-class device. If there is none it falls back to the
  `AudioManager` flags, then to the `BluetoothAdapter`. The module also has
  `getCurrentAudioOutputDevice`, the two name helpers, `isHeadphonesConnected`,
  `HeadphonesInfo.toMap`, the method-call dispatch, and the broadcast receiver
  registered by `onListen`. The `eventSink` and `headsetReceiver` fields are
  modelled as the class `HeadphonesPlugin`.
- **iOS `HeadphonesDetectionPlugin`** (module `IosHeadphones`):
  `getCurrentRouteType` is a method whose loop folds the output ports into a
  route string. It is proved equal to the priority function `RouteOf`:
  headphones anywhere, else Bluetooth anywhere, else the first speaker or
  receiver, else "unknown". The module also has the `handle` dispatch and
  the route-change stream (class `IosHeadphonesPlugin`).
- **`AudioRouteDetector`** (module `RouteDetector`): the route from the flags,
  with Bluetooth checked first. The single callback slot is the class
  `AudioRouteDetector`.
- **`HeadsetEventsHandler`** (module `HeadsetEvents`): decodes the `state`
  extra, dispatches on the intent action, and keeps the receiver field's
  register/unregister lifecycle.
- Module `RoutePriorities` relates the rules. The four rules disagree on
  wired versus Bluetooth, and the model keeps each one as written:
  - `AudioRouteDetector` puts Bluetooth first.
  - iOS puts headphones first.
  - The Android plugin puts wired first among the flags, but uses device-list
    order in its scan.

Platform queries are plain input values (module `AndroidPlatform`): the SDK
level, an optional `AudioManager` (its three flags and its output devices),
and the outcome of the `BluetoothAdapter` block (it threw, or adapter
presence, enabled, and the A2DP and HEADSET connection states). Every query
made during one operation reads the same snapshot. Registrations with the
platform are fields of the classes: the receivers a context holds, the
callbacks an `AudioManager` holds, and the iOS observer count. The values sent
to an event sink or passed to a client callback are recorded as a sequence.

The Android constants are those of the platform:
- `AudioDeviceInfo` type codes (wired headset 3, wired headphones 4, SCO 7,
  A2DP 8, USB device 11, USB headset 22, hearing aid 23, BLE headset 26, BLE
  speaker 27);
- `VERSION_CODES.M` = 23;
- `STATE_CONNECTED` = 2.

`AudioManager.ACTION_HEADSET_PLUG` and `Intent.ACTION_HEADSET_PLUG` are the
same string, so the two headset-plug branches of each `when` are one branch
in the model.

The plugins keep no set of known devices and neither suppress duplicate
notifications nor debounce: every event re-queries the platform and emits
what it finds. Nor is there one wired-versus-Bluetooth priority: each of the
Android queries, `AudioRouteDetector` and the iOS plugin orders the two in
its own way, and `RoutePriorities` states where they differ.

## Model

| member | source | states |
|---|---|---|
| AndroidHeadphones.ToMap | android/src/main/kotlin/team/moroz/headphones_detection_plugin/HeadphonesDetectionPlugin.kt:243-255 | the map has exactly the keys name, type and metadata, and reading it back gives the same info |
| AndroidHeadphones.EncodeInfo | android/src/main/kotlin/team/moroz/headphones_detection_plugin/HeadphonesDetectionPlugin.kt:42 | `info?.toMap()` is null exactly for a null info and otherwise decodes back to it |
| AndroidHeadphones.HeadphonesTypeOf | android/src/main/kotlin/team/moroz/headphones_detection_plugin/HeadphonesDetectionPlugin.kt:71-124 | a type code gets a headphone type exactly when it is one of the wired, USB, A2DP, SCO, BLE or hearing-aid codes |
| AndroidHeadphones.FirstIndexWhere | android/src/main/kotlin/team/moroz/headphones_detection_plugin/HeadphonesDetectionPlugin.kt:196-203 | the scan returns the index of the first matching device, with no match before it, and returns none exactly when no device matches |
| AndroidHeadphones.GetHeadphonesInfo | android/src/main/kotlin/team/moroz/headphones_detection_plugin/HeadphonesDetectionPlugin.kt:64-190 | null without an audio manager, and never null when the audio manager exists and any of the three flags is on |
| AndroidHeadphones.ScanDecidesHeadphonesInfo | android/src/main/kotlin/team/moroz/headphones_detection_plugin/HeadphonesDetectionPlugin.kt:68-126 | on API >= M the first headphone-class device decides the result whatever the flags say: its type string by code group, its product name or the per-type default, and metadata of exactly deviceId, productName and address, with "" for absent strings |
| AndroidHeadphones.FlagFallback | android/src/main/kotlin/team/moroz/headphones_detection_plugin/HeadphonesDetectionPlugin.kt:129-155 | with no headphone-class device the flags decide in the order wired, A2DP, SCO, with null metadata; a wired result is always named "Wired Headphones", a Bluetooth one "Bluetooth Device" only through the adapter; with all flags off the adapter decides |
| AndroidHeadphones.AdapterFallback | android/src/main/kotlin/team/moroz/headphones_detection_plugin/HeadphonesDetectionPlugin.kt:157-189 | a result only from a present and enabled adapter; A2DP connected is checked before HEADSET connected; metadata is {source: BluetoothAdapter}; an exception gives null |
| AndroidHeadphones.WiredHeadsetName | android/src/main/kotlin/team/moroz/headphones_detection_plugin/HeadphonesDetectionPlugin.kt:192-206 | null below API M or without an audio manager; otherwise the name of the first wired or USB device, even when that name is null, and null when there is none |
| AndroidHeadphones.BluetoothDeviceName | android/src/main/kotlin/team/moroz/headphones_detection_plugin/HeadphonesDetectionPlugin.kt:208-241 | null on API >= M without an audio manager; the first Bluetooth device with a non-empty name gives the name, unnamed ones are skipped; below API M or with no named Bluetooth device, "Bluetooth Device" exactly when the adapter is enabled with A2DP connected, else null |
| AndroidHeadphones.IsHeadphonesConnected | android/src/main/kotlin/team/moroz/headphones_detection_plugin/HeadphonesDetectionPlugin.kt:58-61 | holds exactly when getCurrentAudioOutputDevice is non-null, and then getHeadphonesInfo is non-null too |
| AndroidHeadphones.GetCurrentAudioOutputDevice | android/src/main/kotlin/team/moroz/headphones_detection_plugin/HeadphonesDetectionPlugin.kt:313-413 | non-null exactly when the audio manager exists and a flag is on; every result has isCurrentOutput = true; its type's flag is on; never bluetoothLE |
| AndroidHeadphones.CurrentOutputWiredScan | android/src/main/kotlin/team/moroz/headphones_detection_plugin/HeadphonesDetectionPlugin.kt:313-343 | on API >= M with the wired flag on, the first wired-headphones or wired-headset device is reported with its product name or "Wired Headphones" and its metadata plus isCurrentOutput = true |
| AndroidHeadphones.CurrentOutputA2dpScan | android/src/main/kotlin/team/moroz/headphones_detection_plugin/HeadphonesDetectionPlugin.kt:325-362 | when the wired scan finds nothing (flag off, or no device of the two wired types, as with only a USB device), the A2DP flag reports the first A2DP device likewise, defaulting to "Bluetooth Headphones" |
| AndroidHeadphones.CurrentOutputScoScan | android/src/main/kotlin/team/moroz/headphones_detection_plugin/HeadphonesDetectionPlugin.kt:325-381 | when the wired and A2DP scans find nothing, the SCO flag reports the first SCO device likewise, defaulting to "Bluetooth Headset" |
| AndroidHeadphones.CurrentOutputFlagFallback | android/src/main/kotlin/team/moroz/headphones_detection_plugin/HeadphonesDetectionPlugin.kt:384-412 | when no scan hits, the flags decide in the order wired, A2DP, SCO, named by the wired or Bluetooth name lookup with the per-type default, with metadata of only isCurrentOutput = true; all flags off gives null |
| AndroidHeadphones.OnMethodCall | android/src/main/kotlin/team/moroz/headphones_detection_plugin/HeadphonesDetectionPlugin.kt:38-56 | the two query methods answer the encoded info, which decodes back to the queried value; setAudioOutputToHeadphones answers its Boolean; anything else is not implemented |
| AndroidHeadphones.ReceiverReaction | android/src/main/kotlin/team/moroz/headphones_detection_plugin/HeadphonesDetectionPlugin.kt:265-284 | only headset-plug and becoming-noisy broadcasts emit; a non-null emission comes only from headset-plug with state 1 and carries the freshly queried info |
| AndroidHeadphones.HeadphonesPlugin.OnListen | android/src/main/kotlin/team/moroz/headphones_detection_plugin/HeadphonesDetectionPlugin.kt:257-293 | subscribing first emits the current info, then stores a new receiver and registers it when there is a context |
| AndroidHeadphones.HeadphonesPlugin.OnReceive | android/src/main/kotlin/team/moroz/headphones_detection_plugin/HeadphonesDetectionPlugin.kt:266-283 | a broadcast appends the receiver's reaction to the values sent, and nothing without a sink |
| AndroidHeadphones.HeadphonesPlugin.OnCancel | android/src/main/kotlin/team/moroz/headphones_detection_plugin/HeadphonesDetectionPlugin.kt:295-303 | the stored receiver is unregistered, a failure is swallowed, and the receiver and sink are cleared |
| RoutePriorities.DetectorAgreesOnConnection | android/src/main/kotlin/team/moroz/headphones_detection_plugin/HeadphonesDetectionPlugin.kt:58-61 | isHeadphonesConnected holds exactly when the detector's route is not "none", and exactly when getCurrentAudioOutputDevice is non-null |
| RoutePriorities.WiredVersusBluetoothOnAndroid | android/src/main/kotlin/team/moroz/headphones_detection_plugin/AudioRouteDetector.kt:23-31 | with wired and A2DP both on and no headphone-class device, the detector says bluetooth while both plugin queries say wired |
| RouteDetector.GetCurrentAudioRoute | android/src/main/kotlin/team/moroz/headphones_detection_plugin/AudioRouteDetector.kt:20-34 | the result is one of wired, bluetooth and none; none exactly when there is no manager or all flags are off; A2DP or SCO on gives bluetooth even with wired on; wired only with both Bluetooth flags off |
| RouteDetector.AudioRouteDetector.RegisterAudioDeviceCallback | android/src/main/kotlin/team/moroz/headphones_detection_plugin/AudioRouteDetector.kt:42-67 | nothing changes without a manager; otherwise the old callback is unregistered first and the manager holds exactly the new one, so at most one is registered |
| RouteDetector.AudioRouteDetector.UnregisterAudioDeviceCallback | android/src/main/kotlin/team/moroz/headphones_detection_plugin/AudioRouteDetector.kt:72-77 | a no-op without a manager or a held callback; otherwise the slot and the manager's registration are cleared, so a second call is a no-op |
| RouteDetector.AudioRouteDetector.OnAudioDevicesAdded | android/src/main/kotlin/team/moroz/headphones_detection_plugin/AudioRouteDetector.kt:55-58 | the client callback of the held registration runs exactly once |
| RouteDetector.AudioRouteDetector.OnAudioDevicesRemoved | android/src/main/kotlin/team/moroz/headphones_detection_plugin/AudioRouteDetector.kt:60-63 | the client callback of the held registration runs exactly once |
| HeadsetEvents.GetHeadsetStateFromIntent | android/src/main/kotlin/team/moroz/headphones_detection_plugin/HeadsetEventsHandler.kt:20-23 | null exactly for a null intent; otherwise "wired" exactly for state 1 and "none" for anything else, including the missing extra (-1) |
| HeadsetEvents.CallbackArgument | android/src/main/kotlin/team/moroz/headphones_detection_plugin/HeadsetEventsHandler.kt:35-47 | the callback runs only for headset-plug and becoming-noisy; "wired" only for headset-plug with state 1; for headset-plug the argument is the decoded plug state; becoming-noisy passes "none" |
| HeadsetEvents.HeadsetEventsHandler.RegisterReceiver | android/src/main/kotlin/team/moroz/headphones_detection_plugin/HeadsetEventsHandler.kt:30-58 | nothing without a context; otherwise a fresh receiver is stored and registered, and an earlier one stays registered |
| HeadsetEvents.HeadsetEventsHandler.UnregisterReceiver | android/src/main/kotlin/team/moroz/headphones_detection_plugin/HeadsetEventsHandler.kt:63-72 | a no-op without a context or receiver; otherwise the receiver is unregistered and the field is always cleared |
| HeadsetEvents.HeadsetEventsHandler.OnReceive | android/src/main/kotlin/team/moroz/headphones_detection_plugin/HeadsetEventsHandler.kt:34-48 | a broadcast invokes the receiver's client at most once, with the decoded argument |
| RoutePriorities.HeadsetDecodersAgree | android/src/main/kotlin/team/moroz/headphones_detection_plugin/HeadsetEventsHandler.kt:35-47 | where the handler passes "wired" the plugin emits the queried info, where it passes "none" the plugin emits null, and both ignore the same broadcasts |
| IosHeadphones.GetCurrentRouteType | ios/Classes/HeadphonesDetectionPlugin.swift:28-66 | the fold's result equals the priority function RouteOf and is one of unknown, speaker, headphones, bluetooth, receiver |
| IosHeadphones.FirstBuiltInRoute | ios/Classes/HeadphonesDetectionPlugin.swift:38-56 | the first speaker or receiver names the result ("speaker" or "receiver"), whatever follows it; "unknown" exactly when there is neither |
| IosHeadphones.RouteOfSnoc | ios/Classes/HeadphonesDetectionPlugin.swift:37-62 | one more port: headphones always take over, Bluetooth takes over from all but headphones, speaker and receiver only replace "unknown", other ports change nothing |
| IosHeadphones.FirstBuiltInWins | ios/Classes/HeadphonesDetectionPlugin.swift:38-56 | with neither headphones nor Bluetooth, whichever of speaker and receiver comes first decides |
| IosHeadphones.OtherPortIgnored | ios/Classes/HeadphonesDetectionPlugin.swift:57-61 | inserting a port of another type anywhere leaves the route unchanged |
| IosHeadphones.HeadphonesWin | ios/Classes/HeadphonesDetectionPlugin.swift:43-46 | a headphones port anywhere gives "headphones" |
| IosHeadphones.BluetoothBeatsBuiltIn | ios/Classes/HeadphonesDetectionPlugin.swift:47-51 | without headphones, any Bluetooth port gives "bluetooth", even after a speaker or receiver |
| IosHeadphones.Handle | ios/Classes/HeadphonesDetectionPlugin.swift:17-26 | isHeadphonesConnected answers the route string; every other method is not implemented |
| IosHeadphones.IosHeadphonesPlugin.OnListen | ios/Classes/HeadphonesDetectionPlugin.swift:74-87 | subscribing keeps the sink and adds an observer, and emits nothing |
| IosHeadphones.IosHeadphonesPlugin.HandleRouteChange | ios/Classes/HeadphonesDetectionPlugin.swift:68-72 | each notification emits the freshly computed route, with no comparison to the previous one |
| IosHeadphones.IosHeadphonesPlugin.OnCancel | ios/Classes/HeadphonesDetectionPlugin.swift:89-93 | every observer registration is removed and the sink is dropped |

## Left out

- `setAudioOutputToHeadphones`: it exists for its side effects on the audio system (starting Bluetooth SCO, setting the communication device, a 100 ms sleep). Its Boolean result is a parameter of `OnMethodCall`.
- Flutter channel plumbing (`onAttachedToEngine`, `onDetachedFromEngine`, `register(with:)`, channel setup): bridging with no logic. Only whether a context exists is kept, as a constant of `HeadphonesPlugin`.
- `AudioRoutePlugin.kt` is not part of this model. It delegates to `AudioRouteDetector` and `HeadsetEventsHandler` and re-emits on every event without emitting on subscription.
- Real platform calls (`AudioManager`, `BluetoothAdapter`, `AVAudioSession`, `NotificationCenter`, `registerReceiver`) are input snapshots or registration fields. Each query reads one snapshot, so a platform change between two `getDevices` calls of one query is not modelled.
- Exceptions in the `BluetoothAdapter` block are one outcome, `Threw`: where in the block the exception arose is not modelled, since every such exception leads to the same null result.
- Non-integer intent extras are not modelled: `getIntExtra` reads only integer extras, and anything else reads as the default -1.
- Main-thread dispatch (`Handler`/`Looper`) and callback delivery timing: concurrency.
- Debounce, duplicate suppression and a known-device set: the code has none of them.
