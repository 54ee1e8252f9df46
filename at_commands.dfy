/** The AT command gateway of AT.cpp as state transitions: each command
    maps the firmware's globals to new globals, the reply lines it prints
    and the calls it makes into the BLE stack. */
module AtCommands {

  import opened Options
  import opened ArduinoString
  import opened Hex
  import opened BleTransport

  const VERSION := "0.1"

  const ConnectPrefix := "AT+BLECONNECT="
  const SetServicePrefix := "AT+BLESETSERVICE="
  const SetCharPrefix := "AT+BLESETCHAR="
  const ReadPrefix := "AT+BLEREAD="

  /** The globals of AT.cpp that commands read and write. */
  datatype Globals = Globals(
    bleInitialized: bool,
    bleAdvertising: bool,
    serviceUuid: string,                     // globalServiceUUID
    characteristicUuid: string,              // globalCharacteristicUUID
    remoteService: Option<Uuid>,             // remoteServicePtr
    remoteCharacteristic: Option<CharRef>,   // remoteCharacteristicPtr
    client: Link)                            // pClient

  /** The globals at power-on. */
  const Boot := Globals(false, false, "", "", None, None, NoClient)

  /** Advertising is only ever on while the radio is initialised. */
  predicate RadioInvariant(g: Globals)
  {
    g.bleAdvertising ==> g.bleInitialized
  }

  /** The outcome of one operation: new globals, printed lines, stack calls. */
  datatype Step = Step(g: Globals, lines: seq<string>, calls: seq<Call>)

  function WithOk(s: Step): Step
  {
    s.(lines := s.lines + ["OK"])
  }

  // ---------------------------------------------------------------------
  // Server-mode radio control (AT.cpp:54-115)

  function StartBle(g: Globals): Step
  {
    if !g.bleInitialized then
      Step(g.(bleInitialized := true), ["BLE initialized (server mode)"], [InitServer])
    else
      Step(g, ["BLE already initialized"], [])
  }

  function StopBle(g: Globals): Step
  {
    if g.bleInitialized then
      if g.bleAdvertising then
        Step(g.(bleAdvertising := false, bleInitialized := false),
             ["BLE advertising stopped", "BLE deinitialized (simulated)"], [StopAdvertising])
      else
        Step(g.(bleInitialized := false), ["BLE deinitialized (simulated)"], [])
    else
      Step(g, ["BLE not initialized"], [])
  }

  function StartAdvertisingCmd(g: Globals): Step
  {
    if g.bleInitialized then
      if !g.bleAdvertising then
        Step(g.(bleAdvertising := true), ["BLE advertising started"], [StartAdvertising])
      else
        Step(g, ["BLE already advertising"], [])
    else
      Step(g, ["BLE not initialized"], [])
  }

  function StopAdvertisingCmd(g: Globals): Step
  {
    if g.bleInitialized then
      if g.bleAdvertising then
        Step(g.(bleAdvertising := false), ["BLE advertising stopped"], [StopAdvertising])
      else
        Step(g, ["BLE not advertising"], [])
    else
      Step(g, ["BLE not initialized"], [])
  }

  // ---------------------------------------------------------------------
  // Client mode (AT.cpp:121-238)

  /** The `if (!bleInitialized) { BLEDevice::init(...); bleInitialized =
      true; }` that scanning and connecting begin with. */
  function InitOnDemand(g: Globals): Step
  {
    if !g.bleInitialized then Step(g.(bleInitialized := true), [], [Init]) else Step(g, [], [])
  }

  /** `scanBLEDevices`; the per-device lines are not modelled. */
  function ScanDevices(g: Globals): Step
  {
    var i := InitOnDemand(g);
    Step(i.g, ["Starting BLE scan...", "Scan complete"], i.calls + [Scan])
  }

  function ConnectToDevice(g: Globals, radio: Radio, address: string): Step
  {
    if g.client.connected then
      Step(g, ["Already connected to a device."], [])
    else
      var i := InitOnDemand(g);
      var calls := i.calls + [CreateClient, Connect(address)];
      if address in radio.peers then
        Step(i.g.(client := Link(true, radio.peers[address])),
             ["Created BLE client", "Connected to device: " + address], calls)
      else
        Step(i.g.(client := NoClient),
             ["Created BLE client", "Failed to connect to device: " + address], calls)
  }

  /** The peer drops the link: `pClient->isConnected()` turns false while
      `pClient`, its table and every global stay as they were. */
  function LinkLost(g: Globals): Globals
  {
    g.(client := g.client.(connected := false))
  }

  /** `discoverServices`; the per-service listing is not modelled. */
  function DiscoverServices(g: Globals): Step
  {
    if !g.client.connected then
      Step(g, ["Not connected to any device."], [])
    else
      Step(g, ["Discovering services and characteristics..."]
              + (if g.client.services == map[] then ["No services found."] else [])
              + ["Service discovery complete."], [GetServices])
  }

  function ReadValueLine(value: seq<uint8>): string
  {
    "Read value (hex): " + HexText(value)
  }

  function ReadCachedCharacteristic(g: Globals, radio: Radio): Step
  {
    if !g.client.connected then
      Step(g, ["Not connected to any device."], [])
    else if g.remoteCharacteristic.None? then
      Step(g, ["Characteristic pointer not set. Use AT+BLESETSERVICE and AT+BLESETCHAR."], [])
    else
      var ref := g.remoteCharacteristic.value;
      Step(g, [ReadValueLine(radio.readValue(ref))], [ReadValue(ref)])
  }

  function ReadCharacteristic(g: Globals, radio: Radio, serviceUuid: Uuid, charUuid: Uuid): Step
  {
    if !g.client.connected then
      Step(g, ["Not connected to any device."], [])
    else if LookupService(g.client, serviceUuid).None? then
      Step(g, ["Service not found: " + serviceUuid], [GetService(serviceUuid)])
    else
      var calls := [GetService(serviceUuid), GetCharacteristic(serviceUuid, charUuid)];
      match LookupCharacteristic(g.client, serviceUuid, charUuid)
      case None => Step(g, ["Characteristic not found: " + charUuid], calls)
      case Some(ref) => Step(g, [ReadValueLine(radio.readValue(ref))], calls + [ReadValue(ref)])
  }

  // ---------------------------------------------------------------------
  // Cached-reference commands (AT.cpp:286-328, 349-365)

  function SetService(g: Globals, uuid: Uuid): Step
  {
    var g1 := g.(serviceUuid := uuid);
    var echo := ["Service UUID set to: " + uuid];
    if !g.client.connected then
      Step(g1, echo + ["Not connected to any device. Pointer caching deferred."], [])
    else
      var service := LookupService(g.client, uuid);
      var g2 := g1.(remoteService := service);
      if service.None? then
        Step(g2, echo + ["Service not found on remote device."], [GetService(uuid)])
      else if |g.characteristicUuid| > 0 then
        var ch := LookupCharacteristic(g.client, uuid, g.characteristicUuid);
        Step(g2.(remoteCharacteristic := ch),
             echo + ["Service pointer acquired.",
                     if ch.Some? then "Characteristic pointer acquired." else "Characteristic pointer not found."],
             [GetService(uuid), GetCharacteristic(uuid, g.characteristicUuid)])
      else
        Step(g2, echo + ["Service pointer acquired."], [GetService(uuid)])
  }

  function SetCharacteristic(g: Globals, uuid: Uuid): Step
  {
    var g1 := g.(characteristicUuid := uuid);
    var echo := ["Characteristic UUID set to: " + uuid];
    match g.remoteService
    case None =>
      Step(g1, echo + ["Service pointer not set. Set service first."], [])
    case Some(service) =>
      var ch := LookupCharacteristic(g.client, service, uuid);
      Step(g1.(remoteCharacteristic := ch),
           echo + [if ch.Some? then "Characteristic pointer acquired." else "Characteristic not found in cached service."],
           [GetCharacteristic(service, uuid)])
  }

  function Notify(g: Globals, enable: bool): Step
  {
    match g.remoteCharacteristic
    case None =>
      Step(g, [if enable then "ERROR: Characteristic pointer not set. Use AT+BLESETSERVICE and AT+BLESETCHAR first."
               else "ERROR: Characteristic pointer not set."], [])
    case Some(ref) =>
      Step(g, [if enable then "Notifications enabled" else "Notifications disabled"], [RegisterForNotify(ref, enable)])
  }

  /** The line `notifyCallback` prints for an incoming notification. */
  function NotificationLine(value: seq<uint8>): string
  {
    "Notification received (hex): " + HexText(value)
  }

  // ---------------------------------------------------------------------
  // The dispatcher (AT.cpp:246-369), split into recognising the trimmed
  // line and executing what it names

  /** The commands `processATCommand` recognises, with their parameters
      already cut out and trimmed. */
  datatype Command =
    | At
    | Version
    | BleStart
    | BleStop
    | AdvertiseOn
    | AdvertiseOff
    | BleScan
    | BleConnect(address: string)
    | BleDiscover
    | BleSetService(uuid: string)
    | BleSetChar(uuid: string)
    | BleRead
    | BleReadUuids(service: string, characteristic: string)
    | BleReadInvalid
    | BleNotify
    | BleNotifyOff
    | Unknown

  /** The if-chain of `processATCommand`, in its order, on a trimmed line. */
  function Parse(cmd: string): Command
  {
    if cmd == "AT" then At
    else if cmd == "AT+VERSION?" then Version
    else if cmd == "AT+BLESTART" then BleStart
    else if cmd == "AT+BLESTOP" then BleStop
    else if cmd == "AT+BLEADVERTISE=ON" then AdvertiseOn
    else if cmd == "AT+BLEADVERTISE=OFF" then AdvertiseOff
    else if cmd == "AT+BLESCAN" then BleScan
    else if StartsWith(cmd, ConnectPrefix) then BleConnect(Trim(Substring(cmd, 14)))
    else if cmd == "AT+BLEDISCOVER" then BleDiscover
    else if StartsWith(cmd, SetServicePrefix) then BleSetService(Trim(Substring(cmd, |SetServicePrefix|)))
    else if StartsWith(cmd, SetCharPrefix) then BleSetChar(Trim(Substring(cmd, |SetCharPrefix|)))
    else if cmd == "AT+BLEREAD" then BleRead
    else if StartsWith(cmd, ReadPrefix) then ReadParameters(Substring(cmd, 11))
    else if cmd == "AT+BLENOTIFY" then BleNotify
    else if cmd == "AT+BLENOTIFYOFF" then BleNotifyOff
    else Unknown
  }

  /** The parameters of `AT+BLEREAD=`: two UUIDs split at the first comma. */
  function ReadParameters(params: string): Command
  {
    var comma := IndexOf(params, ',');
    if comma == -1 then BleReadInvalid
    else BleReadUuids(Trim(params[..comma]), Trim(params[comma + 1..]))
  }

  function Execute(g: Globals, radio: Radio, c: Command): Step
  {
    match c
    case At => Step(g, ["OK"], [])
    case Version => Step(g, ["ESP32-S3-AT Firmware Version" + VERSION], [])
    case BleStart => WithOk(StartBle(g))
    case BleStop => WithOk(StopBle(g))
    case AdvertiseOn => WithOk(StartAdvertisingCmd(g))
    case AdvertiseOff => WithOk(StopAdvertisingCmd(g))
    case BleScan => WithOk(ScanDevices(g))
    case BleConnect(address) => WithOk(ConnectToDevice(g, radio, address))
    case BleDiscover => WithOk(DiscoverServices(g))
    case BleSetService(uuid) => SetService(g, uuid)
    case BleSetChar(uuid) => SetCharacteristic(g, uuid)
    case BleRead => WithOk(ReadCachedCharacteristic(g, radio))
    case BleReadUuids(service, characteristic) => WithOk(ReadCharacteristic(g, radio, service, characteristic))
    case BleReadInvalid =>
      Step(g, ["ERROR: Invalid parameters. Use AT+BLEREAD=<service_uuid>,<characteristic_uuid>"], [])
    case BleNotify => Notify(g, true)
    case BleNotifyOff => Notify(g, false)
    case Unknown => Step(g, ["ERROR: Unknown Command"], [])
  }

  /** `processATCommand(line)`. */
  function Dispatch(g: Globals, radio: Radio, line: string): Step
  {
    Execute(g, radio, Parse(Trim(line)))
  }

  /** Dispatching a series of lines, one after the other. */
  function DispatchAll(g: Globals, radio: Radio, lines: seq<string>): Step
  {
    if lines == [] then Step(g, [], [])
    else
      var before := DispatchAll(g, radio, lines[..|lines| - 1]);
      var last := Dispatch(before.g, radio, lines[|lines| - 1]);
      Step(last.g, before.lines + last.lines, before.calls + last.calls)
  }
}
