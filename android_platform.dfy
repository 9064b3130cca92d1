/**
 * The Android platform state the plugin queries, as plain input values.
 * Every query the plugin makes (`AudioManager` flags, `getDevices`,
 * `BluetoothAdapter`) reads one snapshot; the platform itself is not modelled.
 */
module AndroidPlatform {
  import opened Wrappers

  // android.media.AudioDeviceInfo type codes
  const TypeBuiltinEarpiece: int := 1
  const TypeBuiltinSpeaker: int := 2
  const TypeWiredHeadset: int := 3
  const TypeWiredHeadphones: int := 4
  const TypeBluetoothSco: int := 7
  const TypeBluetoothA2dp: int := 8
  const TypeUsbDevice: int := 11
  const TypeUsbHeadset: int := 22
  const TypeHearingAid: int := 23
  const TypeBleHeadset: int := 26
  const TypeBleSpeaker: int := 27

  // Build.VERSION_CODES.M (Android 6.0)
  const VersionCodesM: int := 23

  // BluetoothProfile.STATE_CONNECTED
  const StateConnected: int := 2

  // AudioManager.ACTION_HEADSET_PLUG and Intent.ACTION_HEADSET_PLUG are the same string
  const ActionHeadsetPlug: string := "android.intent.action.HEADSET_PLUG"
  // AudioManager.ACTION_AUDIO_BECOMING_NOISY
  const ActionAudioBecomingNoisy: string := "android.media.AUDIO_BECOMING_NOISY"

  /** One `AudioDeviceInfo` of `getDevices(GET_DEVICES_OUTPUTS)`. */
  datatype Device = Device(typeCode: int, productName: Option<string>, id: int, address: Option<string>)

  /** What the plugin reads from a non-null `AudioManager`. */
  datatype AudioManagerState = AudioManagerState(
    isWiredHeadsetOn: bool,
    isBluetoothA2dpOn: bool,
    isBluetoothScoOn: bool,
    outputs: seq<Device>)

  /**
   * Outcome of the `BluetoothAdapter` block: either some call in it threw,
   * or the default adapter's presence, `isEnabled` and the A2DP and HEADSET
   * profile connection states.
   */
  datatype AdapterQuery =
    | Threw
    | Queried(present: bool, enabled: bool, a2dpState: int, headsetState: int)

  /** A snapshot of everything the plugin queries: SDK level, audio manager (null or not), adapter. */
  datatype Platform = Platform(sdkInt: int, audioManager: Option<AudioManagerState>, adapter: AdapterQuery)

  /** A broadcast `Intent`: its action and its integer extras. */
  datatype Intent = Intent(action: Option<string>, intExtras: map<string, int>)

  /** `intent.getIntExtra(name, default)`. */
  function GetIntExtra(intent: Intent, name: string, default: int): int {
    if name in intent.intExtras then intent.intExtras[name] else default
  }

  /** The `state` extra of a headset-plug intent, -1 when missing. */
  function PlugState(intent: Intent): int {
    GetIntExtra(intent, "state", -1)
  }
}
