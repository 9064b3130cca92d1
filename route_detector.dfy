/**
 * `AudioRouteDetector`: the flag-priority route query and the single slot
 * for the `AudioDeviceCallback` it registers with the `AudioManager`.
 */
module RouteDetector {
  import opened Wrappers
  import opened AndroidPlatform

  /**
   * `getCurrentAudioRoute`: Bluetooth (A2DP or SCO) is checked before wired,
   * so it wins when both are on.
   */
  function GetCurrentAudioRoute(audioManager: Option<AudioManagerState>): (r: string)
    ensures r in {"wired", "bluetooth", "none"}
    ensures r == "none" <==>
              audioManager.None?
              || (!audioManager.value.isWiredHeadsetOn && !audioManager.value.isBluetoothA2dpOn && !audioManager.value.isBluetoothScoOn)
    ensures audioManager.Some? && (audioManager.value.isBluetoothA2dpOn || audioManager.value.isBluetoothScoOn) ==> r == "bluetooth"
    ensures r == "wired" <==>
              audioManager.Some? && audioManager.value.isWiredHeadsetOn
              && !audioManager.value.isBluetoothA2dpOn && !audioManager.value.isBluetoothScoOn
  {
    match audioManager
    case None => "none"
    case Some(am) =>
      if am.isBluetoothA2dpOn || am.isBluetoothScoOn then "bluetooth"
      else if am.isWiredHeadsetOn then "wired"
      else "none"
  }

  /** The callback object held in the slot and the client callback it wraps. */
  datatype Registration = Registration(callback: nat, client: nat)

  class AudioRouteDetector {
    /** the `audioDeviceCallback` field */
    var audioDeviceCallback: Option<Registration>
    /** callbacks the `AudioManager` holds from this detector, with the client each one calls */
    var managerCallbacks: map<nat, nat>
    /** the identity the next callback object gets */
    var nextCallback: nat
    /** client callbacks invoked, in order */
    var invocations: seq<nat>

    /** The manager holds exactly the callback in the slot: at most one is ever registered. */
    ghost predicate Valid()
      reads this
    {
      && managerCallbacks == (if audioDeviceCallback.Some?
                              then map[audioDeviceCallback.value.callback := audioDeviceCallback.value.client]
                              else map[])
      && (audioDeviceCallback.Some? ==> audioDeviceCallback.value.callback < nextCallback)
    }

    constructor ()
      ensures Valid()
      ensures audioDeviceCallback == None && managerCallbacks == map[] && invocations == []
    {
      audioDeviceCallback := None;
      managerCallbacks := map[];
      nextCallback := 0;
      invocations := [];
    }

    /**
     * `registerAudioDeviceCallback`: nothing without a manager; otherwise the
     * held callback is unregistered first and a new one wrapping `client`
     * takes the slot.
     */
    method RegisterAudioDeviceCallback(managerPresent: bool, client: nat)
      requires Valid()
      modifies this
      ensures Valid()
      ensures !managerPresent ==> unchanged(this)
      ensures managerPresent ==>
                && audioDeviceCallback == Some(Registration(old(nextCallback), client))
                && managerCallbacks == map[old(nextCallback) := client]
                && nextCallback == old(nextCallback) + 1
      ensures |managerCallbacks| <= 1
      ensures invocations == old(invocations)
    {
      if !managerPresent {
        return;
      }
      if audioDeviceCallback.Some? {
        UnregisterAudioDeviceCallback(managerPresent);
      }
      audioDeviceCallback := Some(Registration(nextCallback, client));
      managerCallbacks := managerCallbacks[nextCallback := client];
      nextCallback := nextCallback + 1;
    }

    /** `unregisterAudioDeviceCallback`: a no-op without a manager or a held callback; otherwise empties the slot. */
    method UnregisterAudioDeviceCallback(managerPresent: bool)
      requires Valid()
      modifies this
      ensures Valid()
      ensures !managerPresent || old(audioDeviceCallback).None? ==> unchanged(this)
      ensures managerPresent ==> audioDeviceCallback == None && managerCallbacks == map[]
      ensures nextCallback == old(nextCallback) && invocations == old(invocations)
    {
      if !managerPresent || audioDeviceCallback.None? {
        return;
      }
      managerCallbacks := managerCallbacks - {audioDeviceCallback.value.callback};
      audioDeviceCallback := None;
    }

    /** `onAudioDevicesAdded` of a registered callback: the client callback runs once. */
    method OnAudioDevicesAdded(callback: nat)
      requires Valid() && callback in managerCallbacks
      modifies this`invocations
      ensures audioDeviceCallback.Some? && invocations == old(invocations) + [audioDeviceCallback.value.client]
    {
      invocations := invocations + [managerCallbacks[callback]];
    }

    /** `onAudioDevicesRemoved` of a registered callback: the client callback runs once. */
    method OnAudioDevicesRemoved(callback: nat)
      requires Valid() && callback in managerCallbacks
      modifies this`invocations
      ensures audioDeviceCallback.Some? && invocations == old(invocations) + [audioDeviceCallback.value.client]
    {
      invocations := invocations + [managerCallbacks[callback]];
    }
  }
}
