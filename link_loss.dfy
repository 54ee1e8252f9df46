/** What the firmware does once the peer has dropped the link
    (`pClient->isConnected()` false, AT.cpp:147, 166, 194, 215, 292): the
    commands that test the link refuse, the cached references survive, and
    the commands that do not test the link still call through them. */
module AtLinkLoss {

  import opened Options
  import opened BleTransport
  import opened AtCommands

  /** Losing the link changes nothing a command set: radio flags, UUIDs and
      references are kept, and the lost client keeps its last table. */
  lemma LinkLostKeepsGlobals(g: Globals)
    ensures var h := LinkLost(g);
      && !h.client.connected && h.client.services == g.client.services
      && RadioInvariant(h) == RadioInvariant(g)
      && (h.bleInitialized, h.bleAdvertising) == (g.bleInitialized, g.bleAdvertising)
      && (h.serviceUuid, h.characteristicUuid) == (g.serviceUuid, g.characteristicUuid)
      && (h.remoteService, h.remoteCharacteristic) == (g.remoteService, g.remoteCharacteristic)
  {
  }

  /** After link loss, discovery and both reads answer that no device is
      connected, call nothing and change nothing. */
  lemma LinkTestingCommandsRefuse(g: Globals, radio: Radio, service: Uuid, characteristic: Uuid)
    ensures var h := LinkLost(g);
      && Execute(h, radio, BleDiscover) == Step(h, ["Not connected to any device.", "OK"], [])
      && Execute(h, radio, BleRead) == Step(h, ["Not connected to any device.", "OK"], [])
      && Execute(h, radio, BleReadUuids(service, characteristic))
         == Step(h, ["Not connected to any device.", "OK"], [])
  {
  }

  /** After link loss, `AT+BLESETSERVICE=` stores the UUID but defers the
      lookup, so the references from before the loss stay in place. */
  lemma SetServiceKeepsStaleReferences(g: Globals, radio: Radio, uuid: Uuid)
    ensures var h := LinkLost(g);
      var r := Execute(h, radio, BleSetService(uuid));
      && r.g == h.(serviceUuid := uuid)
      && r.g.remoteService == g.remoteService && r.g.remoteCharacteristic == g.remoteCharacteristic
      && r.calls == []
  {
  }

  /** `AT+BLENOTIFY` does not test the link: after link loss it still
      registers through the characteristic reference cached before. */
  lemma NotifyThroughStaleReference(g: Globals, radio: Radio, ref: CharRef)
    requires g.remoteCharacteristic == Some(ref)
    ensures Execute(LinkLost(g), radio, BleNotify).calls == [RegisterForNotify(ref, true)]
    ensures Execute(LinkLost(g), radio, BleNotifyOff).calls == [RegisterForNotify(ref, false)]
  {
  }

  /** Reconnecting after link loss creates a new client without the
      "Already connected" refusal and keeps the cached references, so a
      cached read afterwards reads through the reference from the old
      link. */
  lemma {:induction false} ReconnectReadsThroughOldReference(g: Globals, radio: Radio, address: string, ref: CharRef)
    requires g.remoteCharacteristic == Some(ref) && address in radio.peers
    ensures var c := Execute(LinkLost(g), radio, BleConnect(address));
      && c.g.client == Link(true, radio.peers[address])
      && c.g.remoteService == g.remoteService && c.g.remoteCharacteristic == Some(ref)
      && c.calls[|c.calls| - 2..] == [CreateClient, Connect(address)]
      && Execute(c.g, radio, BleRead).calls == [ReadValue(ref)]
  {
    var h := LinkLost(g);
    var c := Execute(h, radio, BleConnect(address));
    assert c == WithOk(ConnectToDevice(h, radio, address));
    assert c.g.remoteCharacteristic == Some(ref);
  }
}
