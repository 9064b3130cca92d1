/**
 * How the route rules of the three Android classes and the iOS plugin relate:
 * where they agree and where their wired-versus-Bluetooth priorities differ.
 */
module RoutePriorities {
  import opened Wrappers
  import opened AndroidPlatform
  import opened AndroidHeadphones
  import opened RouteDetector
  import opened HeadsetEvents
  import IosHeadphones

  /**
   * `AudioRouteDetector` reports a route exactly when the plugin's
   * `isHeadphonesConnected` holds, which is exactly when
   * `getCurrentAudioOutputDevice` is non-null.
   */
  lemma DetectorAgreesOnConnection(p: Platform)
    ensures GetCurrentAudioRoute(p.audioManager) != "none" <==> IsHeadphonesConnected(p)
    ensures GetCurrentAudioRoute(p.audioManager) != "none" <==> GetCurrentAudioOutputDevice(p).Some?
  {
  }

  /**
   * With the wired and A2DP flags both on and no headphone-class device
   * listed, `AudioRouteDetector` says "bluetooth" while the plugin's
   * `getHeadphonesInfo` and `getCurrentAudioOutputDevice` say wired.
   */
  lemma WiredVersusBluetoothOnAndroid(p: Platform)
    requires p.audioManager.Some?
    requires p.audioManager.value.isWiredHeadsetOn && p.audioManager.value.isBluetoothA2dpOn
    requires forall j :: 0 <= j < |p.audioManager.value.outputs| ==> !IsHeadphoneClass(p.audioManager.value.outputs[j])
    ensures GetCurrentAudioRoute(p.audioManager) == "bluetooth"
    ensures GetHeadphonesInfo(p).Some? && TypeName(GetHeadphonesInfo(p).value.kind) == "wired"
    ensures GetCurrentAudioOutputDevice(p).Some? && TypeName(GetCurrentAudioOutputDevice(p).value.kind) == "wired"
  {
  }

  /**
   * The plugin's receiver and `HeadsetEventsHandler` decode broadcasts alike:
   * where the handler passes "wired" the plugin emits the freshly queried
   * info, where it passes "none" the plugin emits null, and both ignore the rest.
   */
  lemma HeadsetDecodersAgree(intent: Option<Intent>, p: Platform)
    ensures CallbackArgument(intent) == Some("wired") ==> ReceiverReaction(intent, p) == Emit(EncodeInfo(GetHeadphonesInfo(p)))
    ensures CallbackArgument(intent) == Some("none") ==> ReceiverReaction(intent, p) == Emit(None)
    ensures CallbackArgument(intent).None? <==> ReceiverReaction(intent, p) == Ignore
  {
  }
}
