/**
 * The iOS `HeadphonesDetectionPlugin`: the route type computed from the
 * `AVAudioSession` current route's output ports, the method-call handler and
 * the route-change stream.
 */
module IosHeadphones {

  /** `AVAudioSession.Port` values; every other port is `OtherPort`. */
  datatype PortType =
    | BuiltInSpeaker
    | Headphones
    | BluetoothA2DP
    | BluetoothLE
    | BluetoothHFP
    | BuiltInReceiver
    | OtherPort(rawValue: string)

  predicate IsBluetooth(port: PortType) {
    port.BluetoothA2DP? || port.BluetoothLE? || port.BluetoothHFP?
  }

  predicate IsBuiltIn(port: PortType) {
    port.BuiltInSpeaker? || port.BuiltInReceiver?
  }

  /** The port at `i` is the first speaker or receiver of `outputs`. */
  predicate FirstBuiltInAt(outputs: seq<PortType>, i: nat)
    requires i < |outputs|
  {
    IsBuiltIn(outputs[i]) && forall j :: 0 <= j < i ==> !IsBuiltIn(outputs[j])
  }

  /** "speaker" or "receiver" after the first built-in output, "unknown" when there is none. */
  function FirstBuiltInRoute(outputs: seq<PortType>): (r: string)
    ensures r in {"unknown", "speaker", "receiver"}
    ensures r == "unknown" <==> forall port :: port in outputs ==> !IsBuiltIn(port)
    ensures forall i {:trigger FirstBuiltInAt(outputs, i)} :: 0 <= i < |outputs| && FirstBuiltInAt(outputs, i)
              ==> r == if outputs[i].BuiltInSpeaker? then "speaker" else "receiver"
  {
    if outputs == [] then "unknown"
    else if IsBuiltIn(outputs[0]) then
      assert outputs[0] in outputs;
      if outputs[0].BuiltInSpeaker? then "speaker" else "receiver"
    else
      assert forall port :: port in outputs ==> port == outputs[0] || port in outputs[1..];
      assert forall i {:trigger FirstBuiltInAt(outputs, i)} :: 1 <= i < |outputs| && FirstBuiltInAt(outputs, i) ==> FirstBuiltInAt(outputs[1..], i - 1);
      FirstBuiltInRoute(outputs[1..])
  }

  /**
   * The route the outputs stand for, by priority: headphones anywhere, then
   * Bluetooth anywhere, then the first of speaker and receiver.
   */
  function RouteOf(outputs: seq<PortType>): string {
    if Headphones in outputs then "headphones"
    else if exists port :: port in outputs && IsBluetooth(port) then "bluetooth"
    else FirstBuiltInRoute(outputs)
  }

  /** The first built-in output of a concatenation is found in its first part if there is one there. */
  lemma {:induction false} FirstBuiltInRouteAppend(a: seq<PortType>, b: seq<PortType>)
    ensures FirstBuiltInRoute(a + b) ==
              if FirstBuiltInRoute(a) != "unknown" then FirstBuiltInRoute(a) else FirstBuiltInRoute(b)
  {
    if a == [] {
      assert a + b == b;
    } else {
      assert (a + b)[0] == a[0];
      assert (a + b)[1..] == a[1..] + b;
      FirstBuiltInRouteAppend(a[1..], b);
    }
  }

  /** How one more output port changes the route: the step of the fold in `getCurrentRouteType`. */
  lemma RouteOfSnoc(s: seq<PortType>, x: PortType)
    ensures x.Headphones? ==> RouteOf(s + [x]) == "headphones"
    ensures IsBluetooth(x) ==> RouteOf(s + [x]) == if RouteOf(s) == "headphones" then "headphones" else "bluetooth"
    ensures x.BuiltInSpeaker? ==> RouteOf(s + [x]) == if RouteOf(s) == "unknown" then "speaker" else RouteOf(s)
    ensures x.BuiltInReceiver? ==> RouteOf(s + [x]) == if RouteOf(s) == "unknown" then "receiver" else RouteOf(s)
    ensures x.OtherPort? ==> RouteOf(s + [x]) == RouteOf(s)
  {
    assert Headphones in s + [x] <==> Headphones in s || x.Headphones?;
    assert (exists port :: port in s + [x] && IsBluetooth(port))
             <==> (exists port :: port in s && IsBluetooth(port)) || IsBluetooth(x) by {
      assert forall port :: port in s + [x] <==> port in s || port == x;
    }
    FirstBuiltInRouteSnoc(s, x);
  }

  /** The scan for the first speaker or receiver, one port longer. */
  lemma FirstBuiltInRouteSnoc(s: seq<PortType>, x: PortType)
    ensures FirstBuiltInRoute(s + [x]) ==
              if FirstBuiltInRoute(s) != "unknown" then FirstBuiltInRoute(s)
              else if x.BuiltInSpeaker? then "speaker"
              else if x.BuiltInReceiver? then "receiver"
              else "unknown"
  {
    FirstBuiltInRouteAppend(s, [x]);
    assert [x][1..] == [];
  }

  /**
   * `getCurrentRouteType`: folds the output ports into `routeType`, starting
   * from "unknown". Headphones always take over, Bluetooth takes over from
   * anything but headphones, speaker and receiver only replace "unknown", and
   * other ports change nothing.
   */
  method GetCurrentRouteType(outputs: seq<PortType>) returns (routeType: string)
    ensures routeType == RouteOf(outputs)
    ensures routeType in {"unknown", "speaker", "headphones", "bluetooth", "receiver"}
  {
    routeType := "unknown";
    for i := 0 to |outputs|
      invariant routeType == RouteOf(outputs[..i])
    {
      assert outputs[..i + 1] == outputs[..i] + [outputs[i]];
      RouteOfSnoc(outputs[..i], outputs[i]);
      match outputs[i]
      case BuiltInSpeaker =>
        if routeType == "unknown" {
          routeType := "speaker";
        }
      case Headphones =>
        routeType := "headphones";
      case BluetoothA2DP | BluetoothLE | BluetoothHFP =>
        if routeType != "headphones" {
          routeType := "bluetooth";
        }
      case BuiltInReceiver =>
        if routeType == "unknown" {
          routeType := "receiver";
        }
      case OtherPort(_) =>
        if routeType == "unknown" {
          routeType := "unknown";
        }
    }
    assert outputs[..|outputs|] == outputs;
  }

  /** With no headphones and no Bluetooth output, the first speaker or receiver decides. */
  lemma {:induction false} FirstBuiltInWins(outputs: seq<PortType>, i: nat)
    requires i < |outputs| && IsBuiltIn(outputs[i])
    requires forall j :: 0 <= j < i ==> !IsBuiltIn(outputs[j])
    requires forall port :: port in outputs ==> !port.Headphones? && !IsBluetooth(port)
    ensures RouteOf(outputs) == if outputs[i].BuiltInSpeaker? then "speaker" else "receiver"
  {
    FirstBuiltInRouteAppend(outputs[..i], outputs[i..]);
    assert outputs == outputs[..i] + outputs[i..];
    assert forall port :: port in outputs[..i] ==> !IsBuiltIn(port);
    assert outputs[i..][0] == outputs[i];
  }

  /** Ports of other types never change the route, wherever they appear. */
  lemma OtherPortIgnored(a: seq<PortType>, b: seq<PortType>, rawValue: string)
    ensures RouteOf(a + [OtherPort(rawValue)] + b) == RouteOf(a + b)
  {
    var x := OtherPort(rawValue);
    OtherPortSkippedByBuiltInScan(a, b, x);
    assert forall port :: port in a + [x] + b <==> port in a + b || port == x;
  }

  /** The scan for the first speaker or receiver passes over a port of another type. */
  lemma OtherPortSkippedByBuiltInScan(a: seq<PortType>, b: seq<PortType>, x: PortType)
    requires x.OtherPort?
    ensures FirstBuiltInRoute(a + [x] + b) == FirstBuiltInRoute(a + b)
  {
    assert a + [x] + b == a + ([x] + b);
    assert ([x] + b)[0] == x && ([x] + b)[1..] == b;
    FirstBuiltInRouteAppend(a, [x] + b);
    FirstBuiltInRouteAppend(a, b);
  }

  /** Headphones win wherever they appear. */
  lemma HeadphonesWin(a: seq<PortType>, b: seq<PortType>)
    ensures RouteOf(a + [Headphones] + b) == "headphones"
  {
  }

  /** Without headphones, any Bluetooth output wins over speaker and receiver, even ones listed earlier. */
  lemma BluetoothBeatsBuiltIn(outputs: seq<PortType>, i: nat)
    requires Headphones !in outputs
    requires i < |outputs| && IsBluetooth(outputs[i])
    ensures RouteOf(outputs) == "bluetooth"
  {
  }

  /** The reply of the method-call handler. */
  datatype Reply = RouteReply(route: string) | MethodNotImplemented

  /** `handle`: "isHeadphonesConnected" answers the route type; every other method is not implemented. */
  method Handle(call: string, outputs: seq<PortType>) returns (reply: Reply)
    ensures call == "isHeadphonesConnected" ==> reply == RouteReply(RouteOf(outputs))
    ensures call != "isHeadphonesConnected" ==> reply == MethodNotImplemented
  {
    if call == "isHeadphonesConnected" {
      var routeType := GetCurrentRouteType(outputs);
      reply := RouteReply(routeType);
    } else {
      reply := MethodNotImplemented;
    }
  }

  /** The plugin's stream state: `eventSink`, its route-change observer registrations, the values sent. */
  class IosHeadphonesPlugin {
    /** `eventSink != nil` */
    var sinkAttached: bool
    /** route-change observer registrations of this plugin with the notification center */
    var observers: nat
    /** values passed to `eventSink`, in order */
    var sent: seq<string>

    constructor ()
      ensures !sinkAttached && observers == 0 && sent == []
    {
      sinkAttached := false;
      observers := 0;
      sent := [];
    }

    /** `onListen`: keeps the sink and observes route changes; nothing is emitted on subscription. */
    method OnListen()
      modifies this
      ensures sinkAttached && observers == old(observers) + 1
      ensures sent == old(sent)
    {
      sinkAttached := true;
      observers := observers + 1;
    }

    /** `handleRouteChange`: emits the freshly computed route, with no comparison to the previous one. */
    method HandleRouteChange(outputs: seq<PortType>)
      requires observers > 0
      modifies this`sent
      ensures sent == old(sent) + (if sinkAttached then [RouteOf(outputs)] else [])
    {
      var routeType := GetCurrentRouteType(outputs);
      if sinkAttached {
        sent := sent + [routeType];
      }
    }

    /** `onCancel`: removes every observer registration and drops the sink. */
    method OnCancel()
      modifies this
      ensures !sinkAttached && observers == 0
      ensures sent == old(sent)
    {
      observers := 0;
      sinkAttached := false;
    }
  }
}
