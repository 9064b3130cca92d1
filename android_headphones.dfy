/**
 * The Android `HeadphonesDetectionPlugin`: headphone info from the output
 * device list, the audio-manager flags and the Bluetooth adapter; the
 * current-output query; the method-call and broadcast dispatch; and the
 * stream subscription state.
 */
module AndroidHeadphones {
  import opened Wrappers
  import opened AndroidPlatform

  /** The `type` strings a `HeadphonesInfo` can carry. */
  datatype HeadphonesType = Wired | BluetoothA2dp | BluetoothSco | BluetoothLe

  function TypeName(t: HeadphonesType): string {
    match t
    case Wired => "wired"
    case BluetoothA2dp => "bluetoothA2DP"
    case BluetoothSco => "bluetoothSCO"
    case BluetoothLe => "bluetoothLE"
  }

  function ParseTypeName(s: string): (r: Option<HeadphonesType>)
    ensures r.Some? ==> TypeName(r.value) == s
  {
    if s == "wired" then Some(Wired)
    else if s == "bluetoothA2DP" then Some(BluetoothA2dp)
    else if s == "bluetoothSCO" then Some(BluetoothSco)
    else if s == "bluetoothLE" then Some(BluetoothLe)
    else None
  }

  /** A value of the `Map<String, Any>` metadata. */
  datatype MetaValue = IntValue(i: int) | StringValue(s: string) | BoolValue(b: bool)

  type Metadata = map<string, MetaValue>

  /** The plugin's `HeadphonesInfo` data class. */
  datatype HeadphonesInfo = HeadphonesInfo(name: string, kind: HeadphonesType, metadata: Option<Metadata>)

  /** A value of the map `toMap` hands to the Flutter channel. */
  datatype WireValue = WireString(s: string) | WireMap(m: Option<Metadata>)

  type Payload = map<string, WireValue>

  /** `HeadphonesInfo.toMap`: the keys `name`, `type` and `metadata`, from which the info is recovered. */
  function ToMap(info: HeadphonesInfo): (m: Payload)
    ensures m.Keys == {"name", "type", "metadata"}
    ensures FromMap(m) == Some(info)
  {
    map["name" := WireString(info.name), "type" := WireString(TypeName(info.kind)), "metadata" := WireMap(info.metadata)]
  }

  /** Reads a `toMap` payload back (the receiving side's view of the channel value). */
  function FromMap(m: Payload): Option<HeadphonesInfo> {
    if "name" in m && "type" in m && "metadata" in m
       && m["name"].WireString? && m["type"].WireString? && m["metadata"].WireMap?
    then
      match ParseTypeName(m["type"].s)
      case Some(k) => Some(HeadphonesInfo(m["name"].s, k, m["metadata"].m))
      case None => None
    else None
  }

  /** `headphonesInfo?.toMap()`. */
  function EncodeInfo(info: Option<HeadphonesInfo>): (r: Option<Payload>)
    ensures r.None? <==> info.None?
    ensures r.Some? ==> FromMap(r.value) == info
  {
    match info
    case None => None
    case Some(i) => Some(ToMap(i))
  }

  // ---------------------------------------------------------------------------
  // Device classification

  const WiredTypes: set<int> := {TypeWiredHeadphones, TypeWiredHeadset, TypeUsbDevice, TypeUsbHeadset}
  const LeTypes: set<int> := {TypeBleHeadset, TypeBleSpeaker, TypeHearingAid}
  const BluetoothTypes: set<int> := {TypeBluetoothA2dp, TypeBluetoothSco} + LeTypes

  /** The branches of the `when (device.type)` in `getHeadphonesInfo`. */
  function HeadphonesTypeOf(typeCode: int): (r: Option<HeadphonesType>)
    ensures r.Some? <==> typeCode in WiredTypes + BluetoothTypes
  {
    if typeCode in WiredTypes then Some(Wired)
    else if typeCode == TypeBluetoothA2dp then Some(BluetoothA2dp)
    else if typeCode == TypeBluetoothSco then Some(BluetoothSco)
    else if typeCode in LeTypes then Some(BluetoothLe)
    else None
  }

  predicate IsHeadphoneClass(d: Device) { HeadphonesTypeOf(d.typeCode).Some? }

  /** The device test of `getWiredHeadsetName`: wired or USB. */
  predicate IsWiredOrUsb(d: Device) { d.typeCode in WiredTypes }

  /** The device test of `getBluetoothDeviceName`: a Bluetooth type with a non-empty product name. */
  predicate IsNamedBluetooth(d: Device) {
    d.typeCode in BluetoothTypes && d.productName.Some? && d.productName.value != ""
  }

  /** The wired test of `getCurrentAudioOutputDevice`: only the two wired types, not USB. */
  predicate IsWiredHeadphones(d: Device) {
    d.typeCode == TypeWiredHeadphones || d.typeCode == TypeWiredHeadset
  }

  predicate IsA2dp(d: Device) { d.typeCode == TypeBluetoothA2dp }

  predicate IsSco(d: Device) { d.typeCode == TypeBluetoothSco }

  /**
   * The early-return `for (device in devices)` scan: the index of the first
   * device that `matches`, in enumeration order.
   */
  function FirstIndexWhere(devices: seq<Device>, matches: Device -> bool): (r: Option<nat>)
    ensures r.Some? ==> r.value < |devices| && matches(devices[r.value])
    ensures r.Some? ==> forall j :: 0 <= j < r.value ==> !matches(devices[j])
    ensures r.None? <==> forall j :: 0 <= j < |devices| ==> !matches(devices[j])
    decreases |devices|
  {
    if devices == [] then None
    else if matches(devices[0]) then Some(0)
    else
      match FirstIndexWhere(devices[1..], matches)
      case None => None
      case Some(k) => Some(k + 1)
  }

  /** The device at `i` is the first one that `matches`. */
  predicate FirstMatchAt(devices: seq<Device>, matches: Device -> bool, i: nat)
    requires i < |devices|
  {
    matches(devices[i]) && forall j :: 0 <= j < i ==> !matches(devices[j])
  }

  // ---------------------------------------------------------------------------
  // getHeadphonesInfo

  function DefaultName(kind: HeadphonesType): string {
    match kind
    case Wired => "Wired Headphones"
    case BluetoothA2dp => "Bluetooth Headphones"
    case BluetoothSco => "Bluetooth Headset"
    case BluetoothLe => "Bluetooth LE Device"
  }

  /** `deviceId`, `productName` and `address` of a device, absent strings as "". */
  function DeviceMetadata(d: Device): Metadata {
    map["deviceId" := IntValue(d.id),
        "productName" := StringValue(d.productName.GetOr("")),
        "address" := StringValue(d.address.GetOr(""))]
  }

  /** The info the device-list scan builds for a device of the given kind. */
  function DeviceInfo(d: Device, kind: HeadphonesType): HeadphonesInfo {
    HeadphonesInfo(d.productName.GetOr(DefaultName(kind)), kind, Some(DeviceMetadata(d)))
  }

  /** The scan of `getHeadphonesInfo` over the output devices. */
  function ScanOutputs(devices: seq<Device>): Option<HeadphonesInfo> {
    match FirstIndexWhere(devices, IsHeadphoneClass)
    case None => None
    case Some(i) => Some(DeviceInfo(devices[i], HeadphonesTypeOf(devices[i].typeCode).value))
  }

  const AdapterMetadata: Metadata := map["source" := StringValue("BluetoothAdapter")]

  predicate AdapterA2dpConnected(q: AdapterQuery) {
    q.Queried? && q.present && q.enabled && q.a2dpState == StateConnected
  }

  /** The `BluetoothAdapter` fallback at the end of `getHeadphonesInfo`. */
  function AdapterFallback(q: AdapterQuery): (r: Option<HeadphonesInfo>)
    ensures r.Some? ==> q.Queried? && q.present && q.enabled
    ensures r.Some? ==> r.value.metadata == Some(AdapterMetadata) && r.value.name == DefaultName(r.value.kind)
    ensures AdapterA2dpConnected(q) ==> r.Some? && r.value.kind == BluetoothA2dp
    ensures q.Queried? && q.present && q.enabled && q.a2dpState != StateConnected
            ==> (r.Some? <==> q.headsetState == StateConnected) && (r.Some? ==> r.value.kind == BluetoothSco)
  {
    match q
    case Threw => None
    case Queried(present, enabled, a2dpState, headsetState) =>
      if present && enabled then
        if a2dpState == StateConnected then
          Some(HeadphonesInfo("Bluetooth Headphones", BluetoothA2dp, Some(AdapterMetadata)))
        else if headsetState == StateConnected then
          Some(HeadphonesInfo("Bluetooth Headset", BluetoothSco, Some(AdapterMetadata)))
        else None
      else None
  }

  /**
   * `getWiredHeadsetName`: the product name of the first wired or USB device,
   * even when that name is null; null below API M or without an audio manager.
   */
  function WiredHeadsetName(p: Platform): (r: Option<string>)
    ensures p.sdkInt < VersionCodesM || p.audioManager.None? ==> r.None?
    ensures p.sdkInt >= VersionCodesM && p.audioManager.Some? ==>
              forall i :: 0 <= i < |p.audioManager.value.outputs| && FirstMatchAt(p.audioManager.value.outputs, IsWiredOrUsb, i)
                ==> r == p.audioManager.value.outputs[i].productName
    ensures p.sdkInt >= VersionCodesM && p.audioManager.Some?
            && (forall j :: 0 <= j < |p.audioManager.value.outputs| ==> !IsWiredOrUsb(p.audioManager.value.outputs[j]))
            ==> r.None?
  {
    if p.sdkInt >= VersionCodesM then
      match p.audioManager
      case None => None
      case Some(am) =>
        match FirstIndexWhere(am.outputs, IsWiredOrUsb)
        case Some(i) => am.outputs[i].productName
        case None => None
    else None
  }

  /**
   * `getBluetoothDeviceName`: the first Bluetooth device with a non-empty
   * name, skipping those whose name is null or empty; otherwise "Bluetooth
   * Device" exactly when the adapter is enabled with A2DP connected. On
   * API >= M with no audio manager it returns null at once.
   */
  function BluetoothDeviceName(p: Platform): (r: Option<string>)
    ensures p.sdkInt >= VersionCodesM && p.audioManager.None? ==> r.None?
    ensures p.sdkInt >= VersionCodesM && p.audioManager.Some? ==>
              forall i :: 0 <= i < |p.audioManager.value.outputs| && FirstMatchAt(p.audioManager.value.outputs, IsNamedBluetooth, i)
                ==> r == p.audioManager.value.outputs[i].productName
    ensures p.sdkInt < VersionCodesM
            || (p.audioManager.Some?
                && forall j :: 0 <= j < |p.audioManager.value.outputs| ==> !IsNamedBluetooth(p.audioManager.value.outputs[j]))
            ==> r == (if AdapterA2dpConnected(p.adapter) then Some("Bluetooth Device") else None)
  {
    if p.sdkInt >= VersionCodesM && p.audioManager.None? then None
    else
      var scanned :=
        if p.sdkInt >= VersionCodesM then
          match FirstIndexWhere(p.audioManager.value.outputs, IsNamedBluetooth)
          case Some(i) => p.audioManager.value.outputs[i].productName
          case None => None
        else None;
      if scanned.Some? then scanned
      else if AdapterA2dpConnected(p.adapter) then Some("Bluetooth Device")
      else None
  }

  /**
   * `isHeadphonesConnected`: one of the three flags is on. It holds exactly
   * when `getCurrentAudioOutputDevice` is non-null, and then
   * `getHeadphonesInfo` is non-null too.
   */
  predicate IsHeadphonesConnected(p: Platform)
    ensures IsHeadphonesConnected(p) <==> GetCurrentAudioOutputDevice(p).Some?
    ensures IsHeadphonesConnected(p) ==> GetHeadphonesInfo(p).Some?
  {
    p.audioManager.Some?
    && (p.audioManager.value.isWiredHeadsetOn
        || p.audioManager.value.isBluetoothA2dpOn
        || p.audioManager.value.isBluetoothScoOn)
  }

  /** `getHeadphonesInfo`: device-list scan, then the three flags, then the Bluetooth adapter. */
  function GetHeadphonesInfo(p: Platform): (r: Option<HeadphonesInfo>)
    ensures p.audioManager.None? ==> r.None?
    ensures p.audioManager.Some?
            && (p.audioManager.value.isWiredHeadsetOn || p.audioManager.value.isBluetoothA2dpOn || p.audioManager.value.isBluetoothScoOn)
            ==> r.Some?
  {
    match p.audioManager
    case None => None
    case Some(am) =>
      var scanned := if p.sdkInt >= VersionCodesM then ScanOutputs(am.outputs) else None;
      if scanned.Some? then scanned
      else if am.isWiredHeadsetOn then
        Some(HeadphonesInfo(WiredHeadsetName(p).GetOr("Wired Headphones"), Wired, None))
      else if am.isBluetoothA2dpOn then
        Some(HeadphonesInfo(BluetoothDeviceName(p).GetOr("Bluetooth Headphones"), BluetoothA2dp, None))
      else if am.isBluetoothScoOn then
        Some(HeadphonesInfo(BluetoothDeviceName(p).GetOr("Bluetooth Headset"), BluetoothSco, None))
      else AdapterFallback(p.adapter)
  }

  /**
   * On API >= M the first headphone-class device in enumeration order decides
   * the result, whatever the flags say; its name is its product name or the
   * per-type default, and its metadata holds exactly id, product name and address.
   */
  lemma ScanDecidesHeadphonesInfo(p: Platform, i: nat)
    requires p.sdkInt >= VersionCodesM && p.audioManager.Some?
    requires i < |p.audioManager.value.outputs| && IsHeadphoneClass(p.audioManager.value.outputs[i])
    requires forall j :: 0 <= j < i ==> !IsHeadphoneClass(p.audioManager.value.outputs[j])
    ensures var d := p.audioManager.value.outputs[i];
            var r := GetHeadphonesInfo(p);
            && r.Some?
            && (d.typeCode in WiredTypes ==> TypeName(r.value.kind) == "wired")
            && (d.typeCode == TypeBluetoothA2dp ==> TypeName(r.value.kind) == "bluetoothA2DP")
            && (d.typeCode == TypeBluetoothSco ==> TypeName(r.value.kind) == "bluetoothSCO")
            && (d.typeCode in LeTypes ==> TypeName(r.value.kind) == "bluetoothLE")
            && (d.productName.Some? ==> r.value.name == d.productName.value)
            && (d.productName.None? ==> r.value.name == DefaultName(r.value.kind))
            && r.value.metadata.Some?
            && r.value.metadata.value.Keys == {"deviceId", "productName", "address"}
            && r.value.metadata.value["deviceId"] == IntValue(d.id)
            && r.value.metadata.value["productName"] == StringValue(if d.productName.Some? then d.productName.value else "")
            && r.value.metadata.value["address"] == StringValue(if d.address.Some? then d.address.value else "")
  {
  }

  /**
   * When no device is headphone-class (or the API is below M), the flags
   * decide in the order wired, A2DP, SCO, with null metadata. The name
   * lookups then find no device in the list: a wired result is always named
   * "Wired Headphones", and a Bluetooth one "Bluetooth Device" only through
   * the adapter.
   */
  lemma FlagFallback(p: Platform)
    requires p.audioManager.Some?
    requires p.sdkInt < VersionCodesM
             || forall j :: 0 <= j < |p.audioManager.value.outputs| ==> !IsHeadphoneClass(p.audioManager.value.outputs[j])
    ensures var am := p.audioManager.value;
            var r := GetHeadphonesInfo(p);
            && (am.isWiredHeadsetOn ==> r == Some(HeadphonesInfo("Wired Headphones", Wired, None)))
            && (!am.isWiredHeadsetOn && am.isBluetoothA2dpOn ==>
                  r == Some(HeadphonesInfo(if AdapterA2dpConnected(p.adapter) then "Bluetooth Device" else "Bluetooth Headphones", BluetoothA2dp, None)))
            && (!am.isWiredHeadsetOn && !am.isBluetoothA2dpOn && am.isBluetoothScoOn ==>
                  r == Some(HeadphonesInfo(if AdapterA2dpConnected(p.adapter) then "Bluetooth Device" else "Bluetooth Headset", BluetoothSco, None)))
            && (!IsHeadphonesConnected(p) ==> r == AdapterFallback(p.adapter))
  {
  }

  // ---------------------------------------------------------------------------
  // getCurrentAudioOutputDevice

  function CurrentOutputMetadata(d: Device): Metadata {
    DeviceMetadata(d)["isCurrentOutput" := BoolValue(true)]
  }

  /** One flag-guarded scan of `getCurrentAudioOutputDevice`. */
  function CurrentScan(flag: bool, devices: seq<Device>, matches: Device -> bool, kind: HeadphonesType): Option<HeadphonesInfo> {
    if !flag then None
    else
      match FirstIndexWhere(devices, matches)
      case None => None
      case Some(i) =>
        Some(HeadphonesInfo(devices[i].productName.GetOr(DefaultName(kind)), kind, Some(CurrentOutputMetadata(devices[i]))))
  }

  const CurrentOutputOnly: Metadata := map["isCurrentOutput" := BoolValue(true)]

  /** `getCurrentAudioOutputDevice`: flag-driven; every result is marked as the current output. */
  function GetCurrentAudioOutputDevice(p: Platform): (r: Option<HeadphonesInfo>)
    ensures r.Some? <==>
              p.audioManager.Some?
              && (p.audioManager.value.isWiredHeadsetOn || p.audioManager.value.isBluetoothA2dpOn || p.audioManager.value.isBluetoothScoOn)
    ensures r.Some? ==> r.value.metadata.Some? && "isCurrentOutput" in r.value.metadata.value
                        && r.value.metadata.value["isCurrentOutput"] == BoolValue(true)
    ensures r.Some? && r.value.kind == Wired ==> p.audioManager.value.isWiredHeadsetOn
    ensures r.Some? && r.value.kind == BluetoothA2dp ==> p.audioManager.value.isBluetoothA2dpOn
    ensures r.Some? && r.value.kind == BluetoothSco ==> p.audioManager.value.isBluetoothScoOn
    ensures r.Some? ==> r.value.kind != BluetoothLe
  {
    match p.audioManager
    case None => None
    case Some(am) =>
      var wired := CurrentScan(am.isWiredHeadsetOn, am.outputs, IsWiredHeadphones, Wired);
      var a2dp := CurrentScan(am.isBluetoothA2dpOn, am.outputs, IsA2dp, BluetoothA2dp);
      var sco := CurrentScan(am.isBluetoothScoOn, am.outputs, IsSco, BluetoothSco);
      if p.sdkInt >= VersionCodesM && wired.Some? then wired
      else if p.sdkInt >= VersionCodesM && a2dp.Some? then a2dp
      else if p.sdkInt >= VersionCodesM && sco.Some? then sco
      else if am.isWiredHeadsetOn then
        Some(HeadphonesInfo(WiredHeadsetName(p).GetOr("Wired Headphones"), Wired, Some(CurrentOutputOnly)))
      else if am.isBluetoothA2dpOn then
        Some(HeadphonesInfo(BluetoothDeviceName(p).GetOr("Bluetooth Headphones"), BluetoothA2dp, Some(CurrentOutputOnly)))
      else if am.isBluetoothScoOn then
        Some(HeadphonesInfo(BluetoothDeviceName(p).GetOr("Bluetooth Headset"), BluetoothSco, Some(CurrentOutputOnly)))
      else None
  }

  /**
   * On API >= M with the wired flag on, the first wired-headphones or
   * wired-headset device is reported, with its metadata marked as the
   * current output. USB devices are not part of this scan.
   */
  lemma CurrentOutputWiredScan(p: Platform, i: nat)
    requires p.sdkInt >= VersionCodesM && p.audioManager.Some? && p.audioManager.value.isWiredHeadsetOn
    requires i < |p.audioManager.value.outputs| && FirstMatchAt(p.audioManager.value.outputs, IsWiredHeadphones, i)
    ensures var d := p.audioManager.value.outputs[i];
            GetCurrentAudioOutputDevice(p)
              == Some(HeadphonesInfo(d.productName.GetOr("Wired Headphones"), Wired, Some(CurrentOutputMetadata(d))))
  {
  }

  /**
   * When the wired scan finds nothing (flag off, or no device of the two
   * wired types, as when only a USB device is listed), the A2DP flag with a
   * listed A2DP device reports the first such device.
   */
  lemma CurrentOutputA2dpScan(p: Platform, i: nat)
    requires p.sdkInt >= VersionCodesM && p.audioManager.Some? && p.audioManager.value.isBluetoothA2dpOn
    requires !p.audioManager.value.isWiredHeadsetOn
             || forall j :: 0 <= j < |p.audioManager.value.outputs| ==> !IsWiredHeadphones(p.audioManager.value.outputs[j])
    requires i < |p.audioManager.value.outputs| && FirstMatchAt(p.audioManager.value.outputs, IsA2dp, i)
    ensures var d := p.audioManager.value.outputs[i];
            GetCurrentAudioOutputDevice(p)
              == Some(HeadphonesInfo(d.productName.GetOr("Bluetooth Headphones"), BluetoothA2dp, Some(CurrentOutputMetadata(d))))
  {
  }

  /** When the wired and A2DP scans find nothing, the SCO scan reports the first SCO device. */
  lemma CurrentOutputScoScan(p: Platform, i: nat)
    requires p.sdkInt >= VersionCodesM && p.audioManager.Some? && p.audioManager.value.isBluetoothScoOn
    requires !p.audioManager.value.isWiredHeadsetOn
             || forall j :: 0 <= j < |p.audioManager.value.outputs| ==> !IsWiredHeadphones(p.audioManager.value.outputs[j])
    requires !p.audioManager.value.isBluetoothA2dpOn
             || forall j :: 0 <= j < |p.audioManager.value.outputs| ==> !IsA2dp(p.audioManager.value.outputs[j])
    requires i < |p.audioManager.value.outputs| && FirstMatchAt(p.audioManager.value.outputs, IsSco, i)
    ensures var d := p.audioManager.value.outputs[i];
            GetCurrentAudioOutputDevice(p)
              == Some(HeadphonesInfo(d.productName.GetOr("Bluetooth Headset"), BluetoothSco, Some(CurrentOutputMetadata(d))))
  {
  }

  /**
   * When no flag scan hits (API below M, or each raised flag finds no device
   * of its types), the flags decide in the order wired, A2DP, SCO; the name
   * comes from the name lookups with the per-type default, and the metadata
   * holds only `isCurrentOutput: true`.
   */
  lemma CurrentOutputFlagFallback(p: Platform)
    requires p.audioManager.Some?
    requires var am := p.audioManager.value;
             p.sdkInt < VersionCodesM
             || ((!am.isWiredHeadsetOn || forall j :: 0 <= j < |am.outputs| ==> !IsWiredHeadphones(am.outputs[j]))
                 && (!am.isBluetoothA2dpOn || forall j :: 0 <= j < |am.outputs| ==> !IsA2dp(am.outputs[j]))
                 && (!am.isBluetoothScoOn || forall j :: 0 <= j < |am.outputs| ==> !IsSco(am.outputs[j])))
    ensures var am := p.audioManager.value;
            var r := GetCurrentAudioOutputDevice(p);
            var only := map["isCurrentOutput" := BoolValue(true)];
            && (am.isWiredHeadsetOn ==>
                  r == Some(HeadphonesInfo(WiredHeadsetName(p).GetOr("Wired Headphones"), Wired, Some(only))))
            && (!am.isWiredHeadsetOn && am.isBluetoothA2dpOn ==>
                  r == Some(HeadphonesInfo(BluetoothDeviceName(p).GetOr("Bluetooth Headphones"), BluetoothA2dp, Some(only))))
            && (!am.isWiredHeadsetOn && !am.isBluetoothA2dpOn && am.isBluetoothScoOn ==>
                  r == Some(HeadphonesInfo(BluetoothDeviceName(p).GetOr("Bluetooth Headset"), BluetoothSco, Some(only))))
            && (!am.isWiredHeadsetOn && !am.isBluetoothA2dpOn && !am.isBluetoothScoOn ==> r.None?)
  {
  }

  // ---------------------------------------------------------------------------
  // onMethodCall and the broadcast receiver of onListen

  datatype Reply = Success(payload: Option<Payload>) | SuccessBool(b: bool) | NotImplemented

  /**
   * `onMethodCall`. The result of `setAudioOutputToHeadphones`, whose effects
   * on the audio system are not modelled, is the parameter `setOutputResult`.
   */
  function OnMethodCall(call: string, p: Platform, setOutputResult: bool): (r: Reply)
    ensures call == "isHeadphonesConnected" ==>
              r.Success? && (r.payload.None? <==> GetHeadphonesInfo(p).None?)
              && (r.payload.Some? ==> FromMap(r.payload.value) == GetHeadphonesInfo(p))
    ensures call == "getCurrentAudioOutputDevice" ==>
              r.Success? && (r.payload.None? <==> GetCurrentAudioOutputDevice(p).None?)
              && (r.payload.Some? ==> FromMap(r.payload.value) == GetCurrentAudioOutputDevice(p))
    ensures call == "setAudioOutputToHeadphones" ==> r == SuccessBool(setOutputResult)
    ensures r.NotImplemented? <==> call !in {"isHeadphonesConnected", "getCurrentAudioOutputDevice", "setAudioOutputToHeadphones"}
  {
    if call == "isHeadphonesConnected" then Success(EncodeInfo(GetHeadphonesInfo(p)))
    else if call == "getCurrentAudioOutputDevice" then Success(EncodeInfo(GetCurrentAudioOutputDevice(p)))
    else if call == "setAudioOutputToHeadphones" then SuccessBool(setOutputResult)
    else NotImplemented
  }

  /** What the headset receiver of `onListen` does with one broadcast. */
  datatype Reaction = Ignore | Emit(value: Option<Payload>)

  /**
   * `onReceive` of the receiver registered by `onListen`: a headset-plug
   * intent with state 1 emits the freshly queried info, any other state
   * (the missing extra reads as -1) emits null, becoming-noisy emits null,
   * and every other broadcast is ignored.
   */
  function ReceiverReaction(intent: Option<Intent>, p: Platform): (r: Reaction)
    ensures r.Emit? <==> intent.Some? && intent.value.action in {Some(ActionHeadsetPlug), Some(ActionAudioBecomingNoisy)}
    ensures r.Emit? && r.value.Some? ==>
              intent.value.action == Some(ActionHeadsetPlug) && PlugState(intent.value) == 1
              && FromMap(r.value.value) == GetHeadphonesInfo(p)
    ensures intent.Some? && intent.value.action == Some(ActionHeadsetPlug) && PlugState(intent.value) == 1 ==>
              r == Emit(EncodeInfo(GetHeadphonesInfo(p)))
  {
    match intent
    case None => Ignore
    case Some(it) =>
      if it.action == Some(ActionHeadsetPlug) then
        Emit(if PlugState(it) == 1 then EncodeInfo(GetHeadphonesInfo(p)) else None)
      else if it.action == Some(ActionAudioBecomingNoisy) then Emit(None)
      else Ignore
  }

  /**
   * The plugin's stream state: the `eventSink` and `headsetReceiver` fields,
   * the receivers the application context holds for this plugin, and the
   * values handed to the sink.
   */
  class HeadphonesPlugin {
    /** Whether `context` was non-null when the plugin attached. */
    const hasContext: bool
    /** `eventSink != null` */
    var sinkAttached: bool
    /** `headsetReceiver`, by identity */
    var headsetReceiver: Option<nat>
    /** receivers registered with the context and not yet unregistered */
    var registeredReceivers: set<nat>
    /** the identity the next receiver object gets */
    var nextReceiver: nat
    /** values passed to `eventSink.success`, in order */
    var sent: seq<Option<Payload>>

    ghost predicate Valid()
      reads this
    {
      && (forall r :: r in registeredReceivers ==> r < nextReceiver)
      && (headsetReceiver.Some? ==> headsetReceiver.value < nextReceiver)
    }

    constructor (hasContext: bool)
      ensures Valid() && this.hasContext == hasContext
      ensures !sinkAttached && headsetReceiver == None && registeredReceivers == {} && sent == []
    {
      this.hasContext := hasContext;
      sinkAttached := false;
      headsetReceiver := None;
      registeredReceivers := {};
      nextReceiver := 0;
      sent := [];
    }

    /**
     * `onListen`: keeps the sink, emits the current info once, then creates a
     * new receiver and registers it when there is a context (an earlier
     * receiver is not unregistered).
     */
    method OnListen(events: bool, p: Platform)
      requires Valid()
      modifies this
      ensures Valid()
      ensures sinkAttached == events
      ensures sent == old(sent) + (if events then [EncodeInfo(GetHeadphonesInfo(p))] else [])
      ensures headsetReceiver == Some(old(nextReceiver)) && old(nextReceiver) !in old(registeredReceivers)
      ensures registeredReceivers == old(registeredReceivers) + (if hasContext then {old(nextReceiver)} else {})
      ensures nextReceiver == old(nextReceiver) + 1
    {
      sinkAttached := events;
      if sinkAttached {
        sent := sent + [EncodeInfo(GetHeadphonesInfo(p))];
      }
      headsetReceiver := Some(nextReceiver);
      if hasContext {
        registeredReceivers := registeredReceivers + {nextReceiver};
      }
      nextReceiver := nextReceiver + 1;
    }

    /** A broadcast delivered to a registered receiver; it re-queries `p` and emits if the sink is attached. */
    method OnReceive(receiver: nat, intent: Option<Intent>, p: Platform)
      requires Valid() && receiver in registeredReceivers
      modifies this`sent
      ensures !sinkAttached ==> sent == old(sent)
      ensures sent == old(sent) + (if sinkAttached && ReceiverReaction(intent, p).Emit? then [ReceiverReaction(intent, p).value] else [])
    {
      var reaction := ReceiverReaction(intent, p);
      if reaction.Emit? && sinkAttached {
        sent := sent + [reaction.value];
      }
    }

    /**
     * `onCancel`: unregisters the current receiver (a failure to unregister is
     * swallowed), then clears the receiver and the sink.
     */
    method OnCancel()
      requires Valid()
      modifies this
      ensures Valid()
      ensures !sinkAttached && headsetReceiver == None
      ensures registeredReceivers ==
                if hasContext && old(headsetReceiver).Some? then old(registeredReceivers) - {old(headsetReceiver).value}
                else old(registeredReceivers)
      ensures sent == old(sent) && nextReceiver == old(nextReceiver)
    {
      if hasContext && headsetReceiver.Some? {
        // unregistering a receiver the context does not hold throws, and is caught
        registeredReceivers := registeredReceivers - {headsetReceiver.value};
      }
      headsetReceiver := None;
      sinkAttached := false;
    }
  }
}
