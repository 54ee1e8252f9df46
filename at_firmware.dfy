/** The AT firmware (AT.cpp) as an object: its globals are fields that the
    command handlers update in place. Each handler is proved against the
    matching transition of `AtCommands`. */
module AtFirmware {

  import opened Options
  import opened ArduinoString
  import opened Hex
  import opened BleTransport
  import opened AtCommands
  import opened LineAssembly

  class Firmware {
    var bleInitialized: bool
    var bleAdvertising: bool
    var globalServiceUUID: string
    var globalCharacteristicUUID: string
    var remoteServicePtr: Option<Uuid>
    var remoteCharacteristicPtr: Option<CharRef>
    var client: Link
    var inputBuffer: string

    /** The globals as a value. */
    function State(): Globals
      reads this
    {
      Globals(bleInitialized, bleAdvertising, globalServiceUUID, globalCharacteristicUUID,
              remoteServicePtr, remoteCharacteristicPtr, client)
    }

    /** The static initialisers of AT.cpp. */
    constructor ()
      ensures State() == Boot && inputBuffer == ""
    {
      bleInitialized, bleAdvertising := false, false;
      globalServiceUUID, globalCharacteristicUUID := "", "";
      remoteServicePtr, remoteCharacteristicPtr := None, None;
      client := NoClient;
      inputBuffer := "";
    }

    method StartBLE() returns (lines: seq<string>, calls: seq<Call>)
      modifies this`bleInitialized
      ensures Step(State(), lines, calls) == StartBle(old(State()))
    {
      if !bleInitialized {
        calls := [InitServer];
        bleInitialized := true;
        lines := ["BLE initialized (server mode)"];
      } else {
        lines, calls := ["BLE already initialized"], [];
      }
    }

    method StopBLE() returns (lines: seq<string>, calls: seq<Call>)
      modifies this`bleInitialized, this`bleAdvertising
      ensures Step(State(), lines, calls) == StopBle(old(State()))
    {
      lines, calls := [], [];
      if bleInitialized {
        if bleAdvertising {
          calls := [StopAdvertising];
          bleAdvertising := false;
          lines := lines + ["BLE advertising stopped"];
        }
        bleInitialized := false;
        lines := lines + ["BLE deinitialized (simulated)"];
      } else {
        lines := ["BLE not initialized"];
      }
    }

    method StartAdvertisingRadio() returns (lines: seq<string>, calls: seq<Call>)
      modifies this`bleAdvertising
      ensures Step(State(), lines, calls) == StartAdvertisingCmd(old(State()))
    {
      calls := [];
      if bleInitialized {
        if !bleAdvertising {
          calls := [StartAdvertising];
          bleAdvertising := true;
          lines := ["BLE advertising started"];
        } else {
          lines := ["BLE already advertising"];
        }
      } else {
        lines := ["BLE not initialized"];
      }
    }

    method StopAdvertisingRadio() returns (lines: seq<string>, calls: seq<Call>)
      modifies this`bleAdvertising
      ensures Step(State(), lines, calls) == StopAdvertisingCmd(old(State()))
    {
      calls := [];
      if bleInitialized {
        if bleAdvertising {
          calls := [StopAdvertising];
          bleAdvertising := false;
          lines := ["BLE advertising stopped"];
        } else {
          lines := ["BLE not advertising"];
        }
      } else {
        lines := ["BLE not initialized"];
      }
    }

    method ScanBLEDevices() returns (lines: seq<string>, calls: seq<Call>)
      modifies this`bleInitialized
      ensures Step(State(), lines, calls) == ScanDevices(old(State()))
    {
      calls := [];
      if !bleInitialized {
        calls := [Init];
        bleInitialized := true;
      }
      lines := ["Starting BLE scan..."];
      calls := calls + [Scan];
      lines := lines + ["Scan complete"];
    }

    method ConnectToDevice(radio: Radio, deviceAddress: string) returns (lines: seq<string>, calls: seq<Call>)
      modifies this`bleInitialized, this`client
      ensures Step(State(), lines, calls) == AtCommands.ConnectToDevice(old(State()), radio, deviceAddress)
    {
      if client.connected {
        return ["Already connected to a device."], [];
      }
      calls := [];
      if !bleInitialized {
        calls := [Init];
        bleInitialized := true;
      }
      client := NoClient;
      calls := calls + [CreateClient, Connect(deviceAddress)];
      lines := ["Created BLE client"];
      if deviceAddress in radio.peers {
        client := Link(true, radio.peers[deviceAddress]);
        lines := lines + ["Connected to device: " + deviceAddress];
      } else {
        lines := lines + ["Failed to connect to device: " + deviceAddress];
      }
    }

    /** The peer drops the link, outside any command. */
    method LinkLost()
      modifies this`client
      ensures State() == AtCommands.LinkLost(old(State()))
    {
      client := client.(connected := false);
    }

    method DiscoverServices() returns (lines: seq<string>, calls: seq<Call>)
      ensures Step(State(), lines, calls) == AtCommands.DiscoverServices(State())
    {
      if !client.connected {
        return ["Not connected to any device."], [];
      }
      lines := ["Discovering services and characteristics..."];
      calls := [GetServices];
      if client.services == map[] {
        lines := lines + ["No services found."];
      }
      lines := lines + ["Service discovery complete."];
    }

    method ReadCachedCharacteristic(radio: Radio) returns (lines: seq<string>, calls: seq<Call>)
      ensures Step(State(), lines, calls) == AtCommands.ReadCachedCharacteristic(State(), radio)
    {
      if !client.connected {
        return ["Not connected to any device."], [];
      }
      if remoteCharacteristicPtr == None {
        return ["Characteristic pointer not set. Use AT+BLESETSERVICE and AT+BLESETCHAR."], [];
      }
      var ref := remoteCharacteristicPtr.value;
      var value := radio.readValue(ref);
      var hex := RenderHex(value);
      lines, calls := ["Read value (hex): " + hex], [ReadValue(ref)];
    }

    method ReadCharacteristic(radio: Radio, serviceUuid: Uuid, charUuid: Uuid) returns (lines: seq<string>, calls: seq<Call>)
      ensures Step(State(), lines, calls) == AtCommands.ReadCharacteristic(State(), radio, serviceUuid, charUuid)
    {
      if !client.connected {
        return ["Not connected to any device."], [];
      }
      var remoteService := LookupService(client, serviceUuid);
      calls := [GetService(serviceUuid)];
      if remoteService == None {
        return ["Service not found: " + serviceUuid], calls;
      }
      var remoteCharacteristic := LookupCharacteristic(client, serviceUuid, charUuid);
      calls := calls + [GetCharacteristic(serviceUuid, charUuid)];
      if remoteCharacteristic == None {
        return ["Characteristic not found: " + charUuid], calls;
      }
      var ref := remoteCharacteristic.value;
      var value := radio.readValue(ref);
      calls := calls + [ReadValue(ref)];
      var hex := RenderHex(value);
      lines := ["Read value (hex): " + hex];
    }

    /** `notifyCallback`: the line printed for an incoming notification. */
    method NotifyCallback(data: seq<uint8>) returns (line: string)
      ensures line == NotificationLine(data)
    {
      var hex := RenderHex(data);
      line := "Notification received (hex): " + hex;
    }

    /** The AT+BLESETSERVICE= block of `processATCommand`. */
    method SetServiceUUID(svcUuid: Uuid) returns (lines: seq<string>, calls: seq<Call>)
      modifies this`globalServiceUUID, this`remoteServicePtr, this`remoteCharacteristicPtr
      ensures Step(State(), lines, calls) == SetService(old(State()), svcUuid)
    {
      globalServiceUUID := svcUuid;
      lines, calls := ["Service UUID set to: " + globalServiceUUID], [];
      if client.connected {
        remoteServicePtr := LookupService(client, globalServiceUUID);
        calls := [GetService(globalServiceUUID)];
        if remoteServicePtr != None {
          lines := lines + ["Service pointer acquired."];
          if |globalCharacteristicUUID| > 0 {
            remoteCharacteristicPtr := LookupCharacteristic(client, remoteServicePtr.value, globalCharacteristicUUID);
            calls := calls + [GetCharacteristic(remoteServicePtr.value, globalCharacteristicUUID)];
            if remoteCharacteristicPtr != None {
              lines := lines + ["Characteristic pointer acquired."];
            } else {
              lines := lines + ["Characteristic pointer not found."];
            }
          }
        } else {
          lines := lines + ["Service not found on remote device."];
        }
      } else {
        lines := lines + ["Not connected to any device. Pointer caching deferred."];
      }
    }

    /** The AT+BLESETCHAR= block of `processATCommand`. */
    method SetCharacteristicUUID(charUuid: Uuid) returns (lines: seq<string>, calls: seq<Call>)
      modifies this`globalCharacteristicUUID, this`remoteCharacteristicPtr
      ensures Step(State(), lines, calls) == SetCharacteristic(old(State()), charUuid)
    {
      globalCharacteristicUUID := charUuid;
      lines, calls := ["Characteristic UUID set to: " + globalCharacteristicUUID], [];
      if remoteServicePtr != None {
        remoteCharacteristicPtr := LookupCharacteristic(client, remoteServicePtr.value, globalCharacteristicUUID);
        calls := [GetCharacteristic(remoteServicePtr.value, globalCharacteristicUUID)];
        if remoteCharacteristicPtr != None {
          lines := lines + ["Characteristic pointer acquired."];
        } else {
          lines := lines + ["Characteristic not found in cached service."];
        }
      } else {
        lines := lines + ["Service pointer not set. Set service first."];
      }
    }

    /** The AT+BLENOTIFY and AT+BLENOTIFYOFF blocks of `processATCommand`. */
    method RegisterNotify(enable: bool) returns (lines: seq<string>, calls: seq<Call>)
      ensures Step(State(), lines, calls) == Notify(State(), enable)
    {
      if remoteCharacteristicPtr == None {
        calls := [];
        if enable {
          lines := ["ERROR: Characteristic pointer not set. Use AT+BLESETSERVICE and AT+BLESETCHAR first."];
        } else {
          lines := ["ERROR: Characteristic pointer not set."];
        }
      } else {
        calls := [RegisterForNotify(remoteCharacteristicPtr.value, enable)];
        lines := [if enable then "Notifications enabled" else "Notifications disabled"];
      }
    }

    /** The branch of `processATCommand` chosen for a classified command. */
    method ExecuteCommand(command: Command, radio: Radio) returns (lines: seq<string>, calls: seq<Call>)
      modifies this`bleInitialized, this`bleAdvertising, this`globalServiceUUID, this`globalCharacteristicUUID,
               this`remoteServicePtr, this`remoteCharacteristicPtr, this`client
      ensures Step(State(), lines, calls) == Execute(old(State()), radio, command)
    {
      match command {
        case At =>
          lines, calls := ["OK"], [];
        case Version =>
          lines, calls := ["ESP32-S3-AT Firmware Version" + VERSION], [];
        case BleStart =>
          lines, calls := StartBLE();
          lines := lines + ["OK"];
        case BleStop =>
          lines, calls := StopBLE();
          lines := lines + ["OK"];
        case AdvertiseOn =>
          lines, calls := StartAdvertisingRadio();
          lines := lines + ["OK"];
        case AdvertiseOff =>
          lines, calls := StopAdvertisingRadio();
          lines := lines + ["OK"];
        case BleScan =>
          lines, calls := ScanBLEDevices();
          lines := lines + ["OK"];
        case BleConnect(address) =>
          lines, calls := ConnectToDevice(radio, address);
          lines := lines + ["OK"];
        case BleDiscover =>
          lines, calls := DiscoverServices();
          lines := lines + ["OK"];
        case BleSetService(svcUuid) =>
          lines, calls := SetServiceUUID(svcUuid);
        case BleSetChar(charUuid) =>
          lines, calls := SetCharacteristicUUID(charUuid);
        case BleRead =>
          lines, calls := ReadCachedCharacteristic(radio);
          lines := lines + ["OK"];
        case BleReadUuids(svcUuid, charUuid) =>
          lines, calls := ReadCharacteristic(radio, svcUuid, charUuid);
          lines := lines + ["OK"];
        case BleReadInvalid =>
          lines, calls := ["ERROR: Invalid parameters. Use AT+BLEREAD=<service_uuid>,<characteristic_uuid>"], [];
        case BleNotify =>
          lines, calls := RegisterNotify(true);
        case BleNotifyOff =>
          lines, calls := RegisterNotify(false);
        case Unknown =>
          lines, calls := ["ERROR: Unknown Command"], [];
      }
    }

    /** `processATCommand`: trim the line, classify it by the if-chain, run the branch. */
    method ProcessATCommand(line: string, radio: Radio) returns (lines: seq<string>, calls: seq<Call>)
      modifies this`bleInitialized, this`bleAdvertising, this`globalServiceUUID, this`globalCharacteristicUUID,
               this`remoteServicePtr, this`remoteCharacteristicPtr, this`client
      ensures Step(State(), lines, calls) == Dispatch(old(State()), radio, line)
    {
      var cmd := Trim(line);
      lines, calls := ExecuteCommand(Parse(cmd), radio);
    }

    /** `loop`: every character waiting on the serial line (`incoming`) is
        fed to the line assembler; each completed non-empty line is
        dispatched at once, with the state left by the lines before it. */
    method Loop(incoming: string, radio: Radio) returns (lines: seq<string>, calls: seq<Call>)
      modifies this
      ensures inputBuffer == Assemble(old(inputBuffer), incoming).buffer
      ensures Step(State(), lines, calls) == DispatchAll(old(State()), radio, Assemble(old(inputBuffer), incoming).complete)
    {
      ghost var g0, b0 := State(), inputBuffer;
      lines, calls := [], [];
      var i := 0;
      while i < |incoming|
        invariant 0 <= i <= |incoming|
        invariant inputBuffer == Assemble(b0, incoming[..i]).buffer
        invariant Step(State(), lines, calls) == DispatchAll(g0, radio, Assemble(b0, incoming[..i]).complete)
      {
        var inChar := incoming[i];
        assert incoming[..i + 1][..i] == incoming[..i];
        ghost var done := Assemble(b0, incoming[..i]).complete;
        if inChar == '\n' || inChar == '\r' {
          if |inputBuffer| > 0 {
            assert (done + [inputBuffer])[..|done|] == done;
            var more, moreCalls := ProcessATCommand(inputBuffer, radio);
            lines, calls := lines + more, calls + moreCalls;
            inputBuffer := "";
          }
        } else {
          inputBuffer := inputBuffer + [inChar];
        }
        i := i + 1;
      }
      assert incoming[..i] == incoming;
    }
  }
}
