/**
 * `HeadsetEventsHandler`: decoding headset broadcasts and the lifecycle of
 * its `BroadcastReceiver` field.
 */
module HeadsetEvents {
  import opened Wrappers
  import opened AndroidPlatform

  /** `getHeadsetStateFromIntent`: null only for a null intent; "wired" exactly for state 1. */
  function GetHeadsetStateFromIntent(intent: Option<Intent>): (r: Option<string>)
    ensures r.None? <==> intent.None?
    ensures r.Some? ==> r.value in {"wired", "none"}
    ensures r.Some? ==> (r.value == "wired" <==> PlugState(intent.value) == 1)
  {
    match intent
    case None => None
    case Some(it) => Some(if PlugState(it) == 1 then "wired" else "none")
  }

  /**
   * The `when (intent?.action)` of the receiver: the value the client callback
   * is invoked with, or None when it is not invoked.
   */
  function CallbackArgument(intent: Option<Intent>): (r: Option<string>)
    ensures r.Some? <==> intent.Some? && intent.value.action in {Some(ActionHeadsetPlug), Some(ActionAudioBecomingNoisy)}
    ensures r.Some? ==> r.value in {"wired", "none"}
    ensures r == Some("wired") ==> intent.value.action == Some(ActionHeadsetPlug) && PlugState(intent.value) == 1
    ensures intent.Some? && intent.value.action == Some(ActionHeadsetPlug) ==> r == GetHeadsetStateFromIntent(intent)
    ensures intent.Some? && intent.value.action == Some(ActionAudioBecomingNoisy) ==> r == Some("none")
  {
    match intent
    case None => None
    case Some(it) =>
      if it.action == Some(ActionHeadsetPlug) then GetHeadsetStateFromIntent(intent)
      else if it.action == Some(ActionAudioBecomingNoisy) then Some("none")
      else None
  }

  class HeadsetEventsHandler {
    /** the `headsetReceiver` field, by identity */
    var headsetReceiver: Option<nat>
    /** receivers the context holds from this handler, with the client callback each one calls */
    var registeredReceivers: map<nat, nat>
    /** the identity the next receiver object gets */
    var nextReceiver: nat
    /** client callback invocations (client, state), in order */
    var delivered: seq<(nat, string)>

    ghost predicate Valid()
      reads this
    {
      && (headsetReceiver.Some? ==> headsetReceiver.value in registeredReceivers)
      && (forall r :: r in registeredReceivers ==> r < nextReceiver)
    }

    constructor ()
      ensures Valid()
      ensures headsetReceiver == None && registeredReceivers == map[] && delivered == []
    {
      headsetReceiver := None;
      registeredReceivers := map[];
      nextReceiver := 0;
      delivered := [];
    }

    /**
     * `registerReceiver`: nothing without a context; otherwise a new receiver
     * wrapping `client` is stored and registered. A receiver registered
     * earlier is not unregistered and keeps receiving.
     */
    method RegisterReceiver(contextPresent: bool, client: nat)
      requires Valid()
      modifies this
      ensures Valid()
      ensures !contextPresent ==> unchanged(this)
      ensures contextPresent ==>
                && headsetReceiver == Some(old(nextReceiver))
                && old(nextReceiver) !in old(registeredReceivers)
                && registeredReceivers == old(registeredReceivers)[old(nextReceiver) := client]
                && nextReceiver == old(nextReceiver) + 1
      ensures delivered == old(delivered)
    {
      if !contextPresent {
        return;
      }
      headsetReceiver := Some(nextReceiver);
      registeredReceivers := registeredReceivers[nextReceiver := client];
      nextReceiver := nextReceiver + 1;
    }

    /**
     * `unregisterReceiver`: a no-op without a context or a stored receiver;
     * otherwise the receiver is unregistered (a platform exception is
     * swallowed) and the field is always cleared.
     */
    method UnregisterReceiver(contextPresent: bool)
      requires Valid()
      modifies this
      ensures Valid()
      ensures !contextPresent || old(headsetReceiver).None? ==> unchanged(this)
      ensures contextPresent ==> headsetReceiver == None
      ensures contextPresent && old(headsetReceiver).Some? ==>
                registeredReceivers == old(registeredReceivers) - {old(headsetReceiver).value}
      ensures nextReceiver == old(nextReceiver) && delivered == old(delivered)
    {
      if !contextPresent || headsetReceiver.None? {
        return;
      }
      registeredReceivers := registeredReceivers - {headsetReceiver.value};
      headsetReceiver := None;
    }

    /** A broadcast delivered to a registered receiver: its client runs at most once. */
    method OnReceive(receiver: nat, intent: Option<Intent>)
      requires Valid() && receiver in registeredReceivers
      modifies this`delivered
      ensures delivered == old(delivered) +
                (if CallbackArgument(intent).Some? then [(registeredReceivers[receiver], CallbackArgument(intent).value)] else [])
    {
      var argument := CallbackArgument(intent);
      if argument.Some? {
        delivered := delivered + [(registeredReceivers[receiver], argument.value)];
      }
    }
  }
}
