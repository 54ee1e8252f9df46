/** What the AT dispatcher promises, stated over `AtCommands.Dispatch`. */
module AtProperties {

  import opened Options
  import opened ArduinoString
  import opened Hex
  import opened BleTransport
  import opened AtCommands

  /** Every command keeps `bleAdvertising ==> bleInitialized`. */
  lemma ExecuteKeepsRadioInvariant(g: Globals, radio: Radio, c: Command)
    requires RadioInvariant(g)
    ensures RadioInvariant(Execute(g, radio, c).g)
  {
  }

  lemma DispatchKeepsRadioInvariant(g: Globals, radio: Radio, line: string)
    requires RadioInvariant(g)
    ensures RadioInvariant(Dispatch(g, radio, line).g)
  {
    ExecuteKeepsRadioInvariant(g, radio, Parse(Trim(line)));
  }

  /** ... and so does any series of commands from power-on. */
  lemma {:induction false} DispatchAllKeepsRadioInvariant(g: Globals, radio: Radio, lines: seq<string>)
    requires RadioInvariant(g)
    ensures RadioInvariant(DispatchAll(g, radio, lines).g)
  {
    if lines != [] {
      DispatchAllKeepsRadioInvariant(g, radio, lines[..|lines| - 1]);
      DispatchKeepsRadioInvariant(DispatchAll(g, radio, lines[..|lines| - 1]).g, radio, lines[|lines| - 1]);
    }
  }

  /** The four radio command lines are recognised as such. */
  lemma ParseRadioCommands()
    ensures Parse("AT+BLESTART") == BleStart && Parse("AT+BLESTOP") == BleStop
    ensures Parse("AT+BLEADVERTISE=ON") == AdvertiseOn && Parse("AT+BLEADVERTISE=OFF") == AdvertiseOff
  {
  }

  /** `AT+BLESTART` always ends with `OK`, initialises the radio, and on an
      initialised radio changes nothing and calls nothing. */
  lemma BleStartRule(g: Globals, radio: Radio, line: string)
    requires Trim(line) == "AT+BLESTART"
    ensures var r := Dispatch(g, radio, line);
      && r.g == g.(bleInitialized := true)
      && r.lines[|r.lines| - 1] == "OK"
      && (g.bleInitialized ==> r == Step(g, ["BLE already initialized", "OK"], []))
  {
    ParseRadioCommands();
  }

  /** `AT+BLESTOP` always ends with `OK` and clears both radio flags; on an
      uninitialised radio it changes nothing and calls nothing. */
  lemma BleStopRule(g: Globals, radio: Radio, line: string)
    requires Trim(line) == "AT+BLESTOP"
    ensures var r := Dispatch(g, radio, line);
      && r.lines[|r.lines| - 1] == "OK"
      && (g.bleInitialized ==> r.g == g.(bleInitialized := false, bleAdvertising := false))
      && (!g.bleInitialized ==> r == Step(g, ["BLE not initialized", "OK"], []))
  {
    ParseRadioCommands();
  }

  /** `AT+BLEADVERTISE=ON` turns advertising on only on an initialised
      radio, and changes nothing when it is already on or the radio is off. */
  lemma AdvertiseOnRule(g: Globals, radio: Radio, line: string)
    requires Trim(line) == "AT+BLEADVERTISE=ON"
    ensures var r := Dispatch(g, radio, line);
      && r.lines[|r.lines| - 1] == "OK"
      && (g.bleInitialized ==> r.g == g.(bleAdvertising := true))
      && (!g.bleInitialized || g.bleAdvertising ==> r.g == g && r.calls == [])
  {
    ParseRadioCommands();
  }

  /** `AT+BLEADVERTISE=OFF` turns advertising off on an initialised radio,
      and changes nothing when it is already off or the radio is off. */
  lemma AdvertiseOffRule(g: Globals, radio: Radio, line: string)
    requires Trim(line) == "AT+BLEADVERTISE=OFF"
    ensures var r := Dispatch(g, radio, line);
      && r.lines[|r.lines| - 1] == "OK"
      && (g.bleInitialized ==> r.g == g.(bleAdvertising := false))
      && (!g.bleInitialized || !g.bleAdvertising ==> r.g == g && r.calls == [])
  {
    ParseRadioCommands();
  }
}

module AtCachedReferences {

  import opened Options
  import opened ArduinoString
  import opened Hex
  import opened BleTransport
  import opened AtCommands

  /** A line beginning `AT+BLESETSERVICE=` is always the set-service command,
      with the rest of the line trimmed as its UUID. */
  lemma ParseSetService(cmd: string)
    requires StartsWith(cmd, SetServicePrefix)
    ensures Parse(cmd) == BleSetService(Trim(cmd[|SetServicePrefix|..]))
  {
    assert cmd[..17] == SetServicePrefix;
    assert cmd[6] == 'S' && cmd[9] == 'S';
    assert |cmd| >= 17;
    assert cmd != "AT+BLEADVERTISE=ON" by { assert "AT+BLEADVERTISE=ON"[6] == 'A'; }
    assert cmd != "AT+BLEADVERTISE=OFF" by { assert "AT+BLEADVERTISE=OFF"[6] == 'A'; }
    assert !StartsWith(cmd, ConnectPrefix) by { assert ConnectPrefix[6] == 'C'; }
  }

  lemma ParseSetChar(cmd: string)
    requires StartsWith(cmd, SetCharPrefix)
    ensures Parse(cmd) == BleSetChar(Trim(cmd[|SetCharPrefix|..]))
  {
    assert cmd[..14] == SetCharPrefix;
    assert cmd[6] == 'S' && cmd[9] == 'C';
    assert cmd != "AT+BLEADVERTISE=ON" by { assert "AT+BLEADVERTISE=ON"[6] == 'A'; }
    assert cmd != "AT+BLEADVERTISE=OFF" by { assert "AT+BLEADVERTISE=OFF"[6] == 'A'; }
    assert cmd != "AT+BLEDISCOVER" by { assert "AT+BLEDISCOVER"[6] == 'D'; }
    assert !StartsWith(cmd, ConnectPrefix) by { assert ConnectPrefix[6] == 'C'; }
    assert !StartsWith(cmd, SetServicePrefix) by { assert SetServicePrefix[9] == 'S'; }
  }

  /** `AT+BLEREAD=` splits its parameters at the first comma and trims both
      halves; without a comma it is the invalid-parameters error. */
  lemma ParseReadUuids(cmd: string)
    requires StartsWith(cmd, ReadPrefix)
    ensures var params := cmd[|ReadPrefix|..];
      && (',' !in params ==> Parse(cmd) == BleReadInvalid)
      && (',' in params ==>
            exists k {:trigger FirstComma(params, k)} :: FirstComma(params, k) &&
              Parse(cmd) == BleReadUuids(Trim(params[..k]), Trim(params[k + 1..])))
  {
    ParseReadPrefix(cmd);
    ReadParametersAtComma(cmd[|ReadPrefix|..]);
  }

  lemma ReadParametersAtComma(params: string)
    ensures ',' !in params ==> ReadParameters(params) == BleReadInvalid
    ensures ',' in params ==>
              exists k {:trigger FirstComma(params, k)} :: FirstComma(params, k) &&
                ReadParameters(params) == BleReadUuids(Trim(params[..k]), Trim(params[k + 1..]))
  {
    if ',' in params {
      var k := IndexOf(params, ',');
      assert FirstComma(params, k);
    }
  }

  /** `k` is the position of the first comma of `params`. */
  predicate FirstComma(params: string, k: int)
  {
    0 <= k < |params| && params[k] == ',' && ',' !in params[..k]
  }

  lemma ParseReadPrefix(cmd: string)
    requires StartsWith(cmd, ReadPrefix)
    ensures Parse(cmd) == ReadParameters(cmd[|ReadPrefix|..])
  {
    assert cmd[..11] == ReadPrefix;
    assert cmd[6] == 'R' && |cmd| >= 11;
    assert cmd != "AT+VERSION?" by { assert "AT+VERSION?"[6] == 'S'; }
    assert cmd != "AT+BLESTART" by { assert "AT+BLESTART"[6] == 'S'; }
    assert cmd != "AT+BLEADVERTISE=ON" by { assert "AT+BLEADVERTISE=ON"[6] == 'A'; }
    assert cmd != "AT+BLEADVERTISE=OFF" by { assert "AT+BLEADVERTISE=OFF"[6] == 'A'; }
    assert cmd != "AT+BLEDISCOVER" by { assert "AT+BLEDISCOVER"[6] == 'D'; }
    assert !StartsWith(cmd, ConnectPrefix) by { assert ConnectPrefix[6] == 'C'; }
    assert !StartsWith(cmd, SetServicePrefix) by { assert SetServicePrefix[6] == 'S'; }
    assert !StartsWith(cmd, SetCharPrefix) by { assert SetCharPrefix[6] == 'S'; }
  }

  /** The parameterless keywords that follow the prefixed commands in the
      chain are still recognised. */
  lemma ParseLateKeywords()
    ensures Parse("AT+BLEREAD") == BleRead
    ensures Parse("AT+BLENOTIFY") == BleNotify
    ensures Parse("AT+BLENOTIFYOFF") == BleNotifyOff
  {
    assert !StartsWith("AT+BLEREAD", ConnectPrefix) by { assert ConnectPrefix[6] == 'C'; }
    assert !StartsWith("AT+BLENOTIFY", ConnectPrefix) by { assert ConnectPrefix[6] == 'C'; }
    assert !StartsWith("AT+BLENOTIFYOFF", ConnectPrefix) by { assert ConnectPrefix[6] == 'C'; }
    assert !StartsWith("AT+BLENOTIFY", SetServicePrefix);
    assert !StartsWith("AT+BLENOTIFYOFF", SetServicePrefix) by { assert SetServicePrefix[6] == 'S'; }
    assert !StartsWith("AT+BLENOTIFY", SetCharPrefix);
    assert !StartsWith("AT+BLENOTIFYOFF", SetCharPrefix) by { assert SetCharPrefix[6] == 'S'; }
    assert !StartsWith("AT+BLENOTIFY", ReadPrefix) by { assert ReadPrefix[6] == 'R'; }
    assert !StartsWith("AT+BLENOTIFYOFF", ReadPrefix) by { assert ReadPrefix[6] == 'R'; }
  }

  /** `AT+BLESETSERVICE=<uuid>` always stores the UUID. Not connected:
      neither reference changes and the stack is not called. Connected: the
      service reference becomes the lookup result (possibly null), and the
      characteristic reference is looked up again only when the service was
      found and a characteristic UUID is stored; otherwise it is kept. */
  lemma SetServiceRule(g: Globals, radio: Radio, u: string)
    ensures var r := Execute(g, radio, BleSetService(u));
      && r.g == g.(serviceUuid := u, remoteService := r.g.remoteService, remoteCharacteristic := r.g.remoteCharacteristic)
      && r.lines[0] == "Service UUID set to: " + u
      && "OK" !in r.lines
      && (!g.client.connected ==>
            r.g.remoteService == g.remoteService && r.g.remoteCharacteristic == g.remoteCharacteristic && r.calls == [])
      && (g.client.connected ==> r.g.remoteService == LookupService(g.client, u))
      && (g.client.connected && u in g.client.services && g.characteristicUuid != "" ==>
            r.g.remoteCharacteristic == LookupCharacteristic(g.client, u, g.characteristicUuid))
      && (!(g.client.connected && u in g.client.services && g.characteristicUuid != "") ==>
            r.g.remoteCharacteristic == g.remoteCharacteristic)
  {
  }

  /** `AT+BLESETCHAR=<uuid>` always stores the UUID; the characteristic
      reference is replaced by the lookup result (possibly null) exactly
      when a service reference is cached, and otherwise nothing else
      changes and the stack is not called. */
  lemma SetCharRule(g: Globals, radio: Radio, u: string)
    ensures var r := Execute(g, radio, BleSetChar(u));
      && r.g == g.(characteristicUuid := u, remoteCharacteristic := r.g.remoteCharacteristic)
      && r.lines[0] == "Characteristic UUID set to: " + u
      && "OK" !in r.lines
      && (g.remoteService.None? ==> r.g.remoteCharacteristic == g.remoteCharacteristic && r.calls == [])
      && (g.remoteService.Some? ==>
            r.g.remoteCharacteristic == LookupCharacteristic(g.client, g.remoteService.value, u))
  {
  }

  /** `AT+BLEREAD=` without a comma prints only the invalid-parameters error:
      no `OK`, no stack call, no change. */
  lemma InvalidReadRule(g: Globals, radio: Radio)
    ensures Execute(g, radio, BleReadInvalid) ==
      Step(g, ["ERROR: Invalid parameters. Use AT+BLEREAD=<service_uuid>,<characteristic_uuid>"], [])
  {
  }

  /** `AT+BLEREAD=<service>,<characteristic>` never changes the globals; it
      fails separately for "not connected", "service not found" and
      "characteristic not found", and otherwise prints the value read from
      exactly the named characteristic, each time followed by `OK`. */
  lemma ExplicitReadRule(g: Globals, radio: Radio, s: string, c: string)
    ensures var r := Execute(g, radio, BleReadUuids(s, c));
      && r.g == g
      && r.lines[|r.lines| - 1] == "OK"
      && (!g.client.connected ==> r == Step(g, ["Not connected to any device.", "OK"], []))
      && (g.client.connected && s !in g.client.services ==>
            r == Step(g, ["Service not found: " + s, "OK"], [GetService(s)]))
      && (g.client.connected && s in g.client.services && c !in g.client.services[s] ==>
            r == Step(g, ["Characteristic not found: " + c, "OK"], [GetService(s), GetCharacteristic(s, c)]))
      && (g.client.connected && s in g.client.services && c in g.client.services[s] ==>
            r.lines == [ReadValueLine(radio.readValue(CharRef(s, c))), "OK"] &&
            r.calls == [GetService(s), GetCharacteristic(s, c), ReadValue(CharRef(s, c))])
  {
  }

  /** `AT+BLEREAD` reads through the cached characteristic reference; when
      not connected or when no reference is cached it does not call the
      stack. It never changes the globals. */
  lemma CachedReadRule(g: Globals, radio: Radio)
    ensures var r := Execute(g, radio, BleRead);
      && r.g == g
      && r.lines[|r.lines| - 1] == "OK"
      && (!g.client.connected || g.remoteCharacteristic.None? ==> r.calls == [])
      && (g.client.connected && g.remoteCharacteristic.Some? ==>
            var ref := g.remoteCharacteristic.value;
            r.lines == [ReadValueLine(radio.readValue(ref)), "OK"] && r.calls == [ReadValue(ref)])
  {
  }

  /** `AT+BLENOTIFY` and `AT+BLENOTIFYOFF` report an error and do not call
      the stack when no characteristic reference is cached, connected or
      not; otherwise they (un)register the callback on it. Neither prints
      `OK` or changes the globals. */
  lemma NotifyRule(g: Globals, radio: Radio, enable: bool)
    ensures var r := Execute(g, radio, if enable then BleNotify else BleNotifyOff);
      && r.g == g
      && "OK" !in r.lines
      && (g.remoteCharacteristic.None? ==>
            r.calls == [] &&
            r.lines == [if enable then "ERROR: Characteristic pointer not set. Use AT+BLESETSERVICE and AT+BLESETCHAR first."
                        else "ERROR: Characteristic pointer not set."])
      && (g.remoteCharacteristic.Some? ==> r.calls == [RegisterForNotify(g.remoteCharacteristic.value, enable)])
  {
  }
}

module AtCommandScope {

  import opened Options
  import opened ArduinoString
  import opened BleTransport
  import opened AtCommands
  import opened AtCachedReferences

  /** The commands that only report (or call the stack without keeping
      anything) leave the globals as they were. */
  predicate IsQuery(c: Command)
  {
    c.At? || c.Version? || c.BleDiscover? || c.BleRead? || c.BleReadUuids? || c.BleReadInvalid?
    || c.BleNotify? || c.BleNotifyOff? || c.Unknown?
  }

  predicate IsRadioCommand(c: Command)
  {
    c.BleStart? || c.BleStop? || c.AdvertiseOn? || c.AdvertiseOff? || c.BleScan? || c.BleConnect?
  }

  lemma QueriesKeepGlobals(g: Globals, radio: Radio, c: Command)
    requires IsQuery(c)
    ensures Execute(g, radio, c).g == g
  {
  }

  /** The radio commands change at most the two radio flags and the client. */
  lemma RadioCommandsKeepReferences(g: Globals, radio: Radio, c: Command)
    requires IsRadioCommand(c)
    ensures var r := Execute(g, radio, c);
      r.g == g.(bleInitialized := r.g.bleInitialized, bleAdvertising := r.g.bleAdvertising, client := r.g.client)
  {
  }

  /** The two set commands leave the radio flags and the client alone;
      `AT+BLESETSERVICE=` does not touch the characteristic UUID, and
      `AT+BLESETCHAR=` neither the service UUID nor the service reference. */
  lemma SetCommandsKeepRadio(g: Globals, radio: Radio, c: Command)
    requires c.BleSetService? || c.BleSetChar?
    ensures var r := Execute(g, radio, c);
      && r.g.bleInitialized == g.bleInitialized && r.g.bleAdvertising == g.bleAdvertising && r.g.client == g.client
      && (c.BleSetService? ==> r.g.characteristicUuid == g.characteristicUuid)
      && (c.BleSetChar? ==> r.g.serviceUuid == g.serviceUuid && r.g.remoteService == g.remoteService)
  {
  }

  /** The stored UUIDs and the cached references change only through the
      two set commands. */
  lemma ReferencesChangeOnlyBySetCommands(g: Globals, radio: Radio, c: Command)
    ensures var r := Execute(g, radio, c);
      && (r.g.serviceUuid != g.serviceUuid ==> c.BleSetService?)
      && (r.g.remoteService != g.remoteService ==> c.BleSetService?)
      && (r.g.characteristicUuid != g.characteristicUuid ==> c.BleSetChar?)
      && (r.g.remoteCharacteristic != g.remoteCharacteristic ==> c.BleSetService? || c.BleSetChar?)
  {
    if IsQuery(c) {
      QueriesKeepGlobals(g, radio, c);
    } else if IsRadioCommand(c) {
      RadioCommandsKeepReferences(g, radio, c);
    } else {
      SetCommandsKeepRadio(g, radio, c);
    }
  }

  /** The client changes only through `AT+BLECONNECT=`; the radio flags
      only through the radio commands and the initialising side effect of
      scanning and connecting. */
  lemma RadioChangesOnlyByRadioCommands(g: Globals, radio: Radio, c: Command)
    ensures var r := Execute(g, radio, c);
      && (r.g.client != g.client ==> c.BleConnect?)
      && (r.g.bleInitialized != g.bleInitialized ==> c.BleStart? || c.BleStop? || c.BleScan? || c.BleConnect?)
      && (r.g.bleAdvertising != g.bleAdvertising ==> c.BleStop? || c.AdvertiseOn? || c.AdvertiseOff?)
  {
    if IsQuery(c) {
      QueriesKeepGlobals(g, radio, c);
    } else if IsRadioCommand(c) {
      RadioFlagsByCommand(g, radio, c);
    } else {
      SetCommandsKeepRadio(g, radio, c);
    }
  }

  /** Which radio command may change which of the radio flags and the client. */
  lemma RadioFlagsByCommand(g: Globals, radio: Radio, c: Command)
    requires IsRadioCommand(c)
    ensures var r := Execute(g, radio, c);
      && (r.g.client != g.client ==> c.BleConnect?)
      && (r.g.bleInitialized != g.bleInitialized ==> c.BleStart? || c.BleStop? || c.BleScan? || c.BleConnect?)
      && (r.g.bleAdvertising != g.bleAdvertising ==> c.BleStop? || c.AdvertiseOn? || c.AdvertiseOff?)
  {
  }

  /** Scanning initialises the radio on demand and changes nothing else. */
  lemma ScanRule(g: Globals, radio: Radio)
    ensures var r := Execute(g, radio, BleScan);
      && r.g == g.(bleInitialized := true)
      && r.calls == (if g.bleInitialized then [] else [Init]) + [Scan]
      && r.lines[|r.lines| - 1] == "OK"
  {
  }

  /** Connecting while connected does nothing. Otherwise the radio is
      initialised on demand, a new client is created and opened, and the
      link is up exactly when the peer accepts; the stored UUIDs and cached
      references are left as they were. */
  lemma ConnectRule(g: Globals, radio: Radio, address: string)
    ensures var r := Execute(g, radio, BleConnect(address));
      && r.lines[|r.lines| - 1] == "OK"
      && (g.client.connected ==> r.g == g && r.calls == [])
      && (!g.client.connected ==>
            && r.g == g.(bleInitialized := true, client := r.g.client)
            && (r.g.client.connected <==> address in radio.peers)
            && (address in radio.peers ==> r.g.client.services == radio.peers[address])
            && r.calls == (if g.bleInitialized then [] else [Init]) + [CreateClient, Connect(address)])
  {
  }

  /** The multi-client test script sends handle-prefixed commands: with
      the parameter `=1`, `AT+BLENOTIFY` is not a command of this firmware,
      so it is answered with the unknown-command error alone and changes
      nothing. */
  lemma NotifyWithHandleIsUnknown(g: Globals, radio: Radio)
    ensures Dispatch(g, radio, "AT+BLENOTIFY=1") == Step(g, ["ERROR: Unknown Command"], [])
  {
    var line := "AT+BLENOTIFY=1";
    assert line[0] == 'A' && line[|line| - 1] == '1';
    TrimUntouched(line);
    ParseNotifyWithHandle();
  }

  lemma ParseNotifyWithHandle()
    ensures Parse("AT+BLENOTIFY=1") == Unknown
  {
    var cmd := "AT+BLENOTIFY=1";
    assert cmd != "AT+BLEDISCOVER" by { assert cmd[6] == 'N'; }
    assert !StartsWith(cmd, ConnectPrefix) by { assert ConnectPrefix[6] == 'C'; }
    assert !StartsWith(cmd, SetServicePrefix) by { assert SetServicePrefix[6] == 'S'; }
    assert !StartsWith(cmd, SetCharPrefix) by { assert SetCharPrefix[6] == 'S'; }
    assert !StartsWith(cmd, ReadPrefix) by { assert ReadPrefix[6] == 'R'; }
  }

  /** Every command the firmware knows begins with `AT`, so any trimmed
      line that does not is answered with the unknown-command error alone,
      without a stack call or a change of state. */
  lemma NonAtLineIsUnknown(g: Globals, radio: Radio, line: string)
    requires |Trim(line)| < 2 || Trim(line)[..2] != "AT"
    ensures Dispatch(g, radio, line) == Step(g, ["ERROR: Unknown Command"], [])
  {
    ParseNonAt(Trim(line));
  }

  lemma ParseNonAt(cmd: string)
    requires |cmd| < 2 || cmd[..2] != "AT"
    ensures Parse(cmd) == Unknown
  {
    NotBeginningWith(cmd, "AT");
    NotBeginningWith(cmd, "AT+VERSION?");
    NotBeginningWith(cmd, "AT+BLESTART");
    NotBeginningWith(cmd, "AT+BLESTOP");
    NotBeginningWith(cmd, "AT+BLEADVERTISE=ON");
    NotBeginningWith(cmd, "AT+BLEADVERTISE=OFF");
    NotBeginningWith(cmd, "AT+BLESCAN");
    NotBeginningWith(cmd, ConnectPrefix);
    NotBeginningWith(cmd, "AT+BLEDISCOVER");
    NotBeginningWith(cmd, SetServicePrefix);
    NotBeginningWith(cmd, SetCharPrefix);
    NotBeginningWith(cmd, "AT+BLEREAD");
    NotBeginningWith(cmd, ReadPrefix);
    NotBeginningWith(cmd, "AT+BLENOTIFY");
    NotBeginningWith(cmd, "AT+BLENOTIFYOFF");
  }

  /** A text that does not begin with `AT` neither equals nor begins with
      a keyword that does. */
  lemma NotBeginningWith(cmd: string, keyword: string)
    requires |keyword| >= 2 && keyword[0] == 'A' && keyword[1] == 'T'
    requires |cmd| < 2 || cmd[..2] != "AT"
    ensures cmd != keyword && !StartsWith(cmd, keyword)
  {
    assert keyword[..2] == "AT";
    if |keyword| <= |cmd| {
      assert cmd[..|keyword|][..2] == cmd[..2];
    }
  }

  /** ... and the set commands store whatever follows `=` as the UUID, so
      the script's `AT+BLESETSERVICE=1,<uuid>` stores `1,<uuid>`. */
  lemma SetCommandsStoreParameterVerbatim(u: string)
    requires Trim(u) == u
    ensures Parse(SetServicePrefix + u) == BleSetService(u)
    ensures Parse(SetCharPrefix + u) == BleSetChar(u)
  {
    var a := SetServicePrefix + u;
    assert a[..|SetServicePrefix|] == SetServicePrefix && a[|SetServicePrefix|..] == u;
    ParseSetService(a);
    var b := SetCharPrefix + u;
    assert b[..|SetCharPrefix|] == SetCharPrefix && b[|SetCharPrefix|..] == u;
    ParseSetChar(b);
  }

  /** A failed service lookup keeps the old characteristic reference, so
      after `AT+BLESETSERVICE=` names a service the peer lacks, `AT+BLEREAD`
      still reads the characteristic of the previous service. This is one
      run of the rule `SetServiceRule` states for all globals. */
  lemma StaleCharacteristicAfterFailedLookup(radio: Radio)
    ensures var link := Link(true, map["A" := {"c"}]);
      var g0 := Boot.(bleInitialized := true, client := link);
      var g1 := Execute(g0, radio, BleSetChar("c")).g;
      var g2 := Execute(g1, radio, BleSetService("A")).g;
      var g3 := Execute(g2, radio, BleSetService("B")).g;
      var r := Execute(g3, radio, BleRead);
      && g3.serviceUuid == "B" && g3.remoteService == None
      && r.calls == [ReadValue(CharRef("A", "c"))]
  {
    var link := Link(true, map["A" := {"c"}]);
    var g0 := Boot.(bleInitialized := true, client := link);
    var g1 := Execute(g0, radio, BleSetChar("c")).g;
    assert g1 == g0.(characteristicUuid := "c");
    var g2 := Execute(g1, radio, BleSetService("A")).g;
    assert "A" in link.services && "c" in link.services["A"];
    assert g2 == g1.(serviceUuid := "A", remoteService := Some("A"), remoteCharacteristic := Some(CharRef("A", "c")));
    var g3 := Execute(g2, radio, BleSetService("B")).g;
    assert "B" !in link.services;
    assert g3 == g2.(serviceUuid := "B", remoteService := None);
  }
}
