# ESP32 BLE AT gateway, packet peripheral and drop counter: a Dafny model

This project models three pieces of the repository and proves properties of
each.

- **The AT command firmware** (`src/AT.cpp`). Characters from the serial
  line are assembled into lines (`loop`). Each non-empty line is trimmed and
  dispatched (`processATCommand`). The dispatcher drives the firmware's
  globals:
  - the radio flags `bleInitialized` and `bleAdvertising`;
  - the stored UUIDs `globalServiceUUID` and `globalCharacteristicUUID`;
  - the cached references `remoteServicePtr` and `remoteCharacteristicPtr`;
  - the client `pClient`.

  Read values and notifications are printed as hexadecimal text.
- **The packet peripheral** (`src/peripheral.cpp`). `sendData` rewrites an
  80-byte buffer in place: a header, a big-endian 32-bit sequence number, a
  counting payload and a footer. It advances the counter only while a client
  is connected. The server callbacks keep the connected flag.
- **The drop counter of the test script** (`test_script.py`, `process_line`).
  It matches a notification line, reads tokens 3..5 of its payload as one
  big-endian number, and updates the per-client table `client_stats`.

## How the model is built

- The vendor BLE stack becomes an abstract transport (`BleTransport`). It has:
  - a `Link` with a `connected` flag and the peer's GATT table, a map from
    service UUID to a set of characteristic UUIDs;
  - a `Radio` naming the addresses that accept a connection and the bytes
    each characteristic read returns.

  The calls that act on the stack are recorded in a `Call` log: radio
  initialisation (alone or with server creation), advertising start and
  stop, the scan, client creation, connection, the service listing,
  service and characteristic lookups, reads and notification registration.
  The firmware's shutdown is only printed, so it makes no call. Getters and status queries
  are not logged: `BLEDevice::getAdvertising()`, `pClient->isConnected()`,
  `getScan`, `setActiveScan` and `clearResults`. "Calls nothing" in the
  contracts therefore means that no such action is taken.
  Two lookups read the abstraction and define it rather than state
  properties of the code. `LookupService` answers a service UUID with that
  UUID when the peer's table has it (`pClient->getService`).
  `LookupCharacteristic` answers a pair of UUIDs with a `CharRef` naming
  both when the table lists the characteristic under the service
  (`getCharacteristic`).
- The Arduino `String::substring(from)` is `ArduinoString.Substring`: the
  suffix from `from`, empty when `from` is past the end. It is a definition
  used by the parser. Its properties enter through `Parse`.
- The peer can drop the link outside any command. `AtCommands.LinkLost` is
  that event: `isConnected()` turns false and nothing else changes.
  `AtFirmware.Firmware.LinkLost` performs it on the object.
- Each command of the firmware is a pure transition in `AtCommands`. It maps
  the globals (`Globals`) to new globals, the lines printed and the calls
  made.
- The firmware object is `AtFirmware.Firmware`, a class whose fields are the
  globals. Each handler updates them in place and is proved to agree with
  its transition. `Loop` feeds the serial characters one at a time in a
  `while` loop. It is proved equal to assembling lines (`LineAssembly`) and
  dispatching them in order.
- The packet peripheral is `Peripheral.PacketServer`. It holds `data` as an
  `array` of bytes, the `uint32_t` counter as an integer below 2^32 whose
  increment wraps explicitly, and the connected flag. `SendData` is proved
  against `Frame`, the packet it must leave in the buffer.
- The drop counter has:
  - the Python string operations it relies on (`PythonText`: `strip`,
    `split`);
  - `int(x, 16)` with CPython's rules for signs, `0x` prefixes and
    underscores (`PythonInt`);
  - the notification pattern as `re.search` applies it (`NotificationPattern`);
  - the table update (`DropCounter`), also as the class `DropMonitor`, whose
    field `clientStats` is updated in place as the script updates its
    dictionary.

### Where the test script and the firmware disagree

The test script drives the firmware as if it could hold one link per peer
and tell the links apart by number (test_script.py:105-124). It connects to
every address in its list in turn, and it prefixes the set commands and
`AT+BLENOTIFY` with the index of a link. The firmware holds one client and
one pair of cached references (src/AT.cpp:21-27). The model follows the
firmware. Consequences the model states:

- **Handle-prefixed commands.**
  - The test script sends `AT+BLESETSERVICE=1,<uuid>` and
    `AT+BLESETCHAR=1,<uuid>` (test_script.py:113-120). The firmware stores
    `1,<uuid>` verbatim as the UUID (`SetCommandsStoreParameterVerbatim`).
  - It also sends `AT+BLENOTIFY=1` (test_script.py:125). The firmware
    answers it with `ERROR: Unknown Command` and changes nothing
    (`NotifyWithHandleIsUnknown`).
- **Second connection.** While the first link is up, a further
  `AT+BLECONNECT=` answers `Already connected to a device.` and changes
  nothing (`ConnectRule`).
- **Failed service lookup.** A failed lookup does not clear a previously
  cached characteristic reference. A later `AT+BLEREAD` still reads the
  characteristic of the previous service. `SetServiceRule` states this for
  all globals; `StaleCharacteristicAfterFailedLookup` plays it out on one
  concrete peer.
- **Notification lines.** The firmware prints
  `Notification received (hex): ...` with no client id. The script's
  pattern expects `Notification received from client <id> ...`, so no
  notification the firmware prints is ever counted
  (`FirmwareNotificationNeverCounted`).
- **Replies.**
  - `AT+VERSION?` replies `ESP32-S3-AT Firmware Version0.1`, with no space
    and no `OK`.
  - The set commands, `AT+BLENOTIFY`, `AT+BLENOTIFYOFF` and a malformed
    `AT+BLEREAD=` print no `OK`.
- **Counter offsets.** The script reads its sequence number from tokens
  3..5. The peripheral stores its counter in bytes 2..5. The two are
  modelled each on its own terms, and their agreement is not claimed.

## Model

| member | source | states |
|---|---|---|
| ArduinoString.Trim | src/AT.cpp:247 | `String::trim` yields a substring of its input with no whitespace at either end, everything cut off before and after it is whitespace, and it is non-empty whenever the input has a non-space character |
| ArduinoString.IndexOf | src/AT.cpp:336 | `indexOf` is -1 exactly when the character is absent; otherwise it is the position of its first occurrence |
| Hex.Digit | src/AT.cpp:44 | `print(b, HEX)` digits are upper-case hex; a digit is decimal exactly when its value is below 10 |
| Hex.DigitValue | src/AT.cpp:44 | reading a printed digit back gives the value that prints as it |
| Hex.PrintHex | src/AT.cpp:44 | `print(n, HEX)` prints at least one upper-case hex digit, and exactly one when `n < 16` |
| Hex.ByteText | src/AT.cpp:43-44 | the optional `0` plus `print(b, HEX)` is always the two-digit form, high digit then low digit |
| Hex.HexText | src/AT.cpp:41-47 | the rendering of `n` bytes is `3n` characters long |
| Hex.HexTextAt | src/AT.cpp:41-47 | byte `i` is printed at positions `3i`, `3i+1`, `3i+2` as high digit, low digit, space |
| Hex.HexTextAlphabet | src/AT.cpp:41-47 | the rendering holds only upper-case hex digits and spaces |
| Hex.ParseHexText | src/AT.cpp:41-47 | reading space-terminated digit pairs back, `None` on any other shape; a result has one byte per three characters |
| Hex.HexTextRoundTrip | src/AT.cpp:41-47 | parsing the printed text back yields exactly the bytes printed |
| Hex.RenderHex | src/AT.cpp:204-210 | the printing loop builds exactly `HexText` of the value |
| AtFirmware.Firmware.constructor | src/AT.cpp:14-27 | the globals start as `Boot`: both flags false, empty UUIDs, null references, no client, empty input buffer |
| AtFirmware.Firmware.StartBLE | src/AT.cpp:54-71 | `startBLE` updates the globals, prints and calls the stack as `StartBle` says, and changes nothing but `bleInitialized` |
| AtFirmware.Firmware.StopBLE | src/AT.cpp:73-85 | `stopBLE` agrees with `StopBle` and changes only the two radio flags |
| AtFirmware.Firmware.StartAdvertisingRadio | src/AT.cpp:87-100 | `startAdvertising` agrees with `StartAdvertisingCmd` and changes only `bleAdvertising` |
| AtFirmware.Firmware.StopAdvertisingRadio | src/AT.cpp:102-115 | `stopAdvertising` agrees with `StopAdvertisingCmd` and changes only `bleAdvertising` |
| AtFirmware.Firmware.ScanBLEDevices | src/AT.cpp:121-144 | scanning initialises the radio on demand and then scans, as `ScanDevices` says |
| AtFirmware.Firmware.ConnectToDevice | src/AT.cpp:146-163 | connecting agrees with `AtCommands.ConnectToDevice` and changes only `bleInitialized` and the client |
| AtFirmware.Firmware.LinkLost | src/AT.cpp:147 | the peer dropping the link turns `isConnected()` false and changes no other global |
| AtFirmware.Firmware.DiscoverServices | src/AT.cpp:165-190 | discovery changes no global, refuses when not connected, and otherwise asks the stack for the services |
| AtFirmware.Firmware.ReadCachedCharacteristic | src/AT.cpp:193-211 | the cached read changes no global and agrees with `AtCommands.ReadCachedCharacteristic` |
| AtFirmware.Firmware.ReadCharacteristic | src/AT.cpp:214-238 | the explicit read changes no global and agrees with `AtCommands.ReadCharacteristic` |
| AtFirmware.Firmware.NotifyCallback | src/AT.cpp:35-48 | the notification callback prints `NotificationLine` of the received bytes |
| AtFirmware.Firmware.SetServiceUUID | src/AT.cpp:286-310 | the set-service block agrees with `SetService` and changes only the service UUID and the two references |
| AtFirmware.Firmware.SetCharacteristicUUID | src/AT.cpp:312-328 | the set-characteristic block agrees with `SetCharacteristic` and changes only the characteristic UUID and its reference |
| AtFirmware.Firmware.RegisterNotify | src/AT.cpp:349-365 | the notify blocks change no global and agree with `Notify` |
| AtFirmware.Firmware.ExecuteCommand | src/AT.cpp:248-368 | each branch of the dispatcher agrees with `Execute` on the classified command |
| AtFirmware.Firmware.ProcessATCommand | src/AT.cpp:246-369 | `processATCommand` agrees with `Dispatch`: trim, classify by the if-chain, execute |
| AtFirmware.Firmware.Loop | src/AT.cpp:378-391 | after `loop`, the input buffer is the assembler's buffer, and state, output and calls are those of dispatching the completed lines in order |
| AtProperties.ExecuteKeepsRadioInvariant | src/AT.cpp:54-163 | every command keeps `bleAdvertising ==> bleInitialized` |
| AtProperties.DispatchKeepsRadioInvariant | src/AT.cpp:246-369 | so does dispatching any line |
| AtProperties.DispatchAllKeepsRadioInvariant | src/AT.cpp:378-391 | so does any series of dispatched lines |
| AtProperties.ParseRadioCommands | src/AT.cpp:255-270 | the four radio command lines are recognised as those commands |
| AtProperties.BleStartRule | src/AT.cpp:255-258 | `AT+BLESTART` ends with `OK` and leaves the radio initialised; already initialised, it changes nothing and calls nothing |
| AtProperties.BleStopRule | src/AT.cpp:259-262 | `AT+BLESTOP` ends with `OK` and clears both flags; uninitialised, it changes nothing and calls nothing |
| AtProperties.AdvertiseOnRule | src/AT.cpp:263-266 | `AT+BLEADVERTISE=ON` sets advertising only on an initialised radio and is a no-op when off or already advertising |
| AtProperties.AdvertiseOffRule | src/AT.cpp:267-270 | `AT+BLEADVERTISE=OFF` clears advertising and is a no-op when off or not advertising |
| AtCachedReferences.ParseSetService | src/AT.cpp:286-288 | any line beginning `AT+BLESETSERVICE=` is the set-service command, with the trimmed rest as UUID |
| AtCachedReferences.ParseSetChar | src/AT.cpp:312-314 | any line beginning `AT+BLESETCHAR=` is the set-characteristic command, with the trimmed rest as UUID |
| AtCachedReferences.ParseReadUuids | src/AT.cpp:334-343 | `AT+BLEREAD=` without a comma is the invalid-parameters error; with one, it splits at the first comma and trims both halves |
| AtCachedReferences.ParseLateKeywords | src/AT.cpp:330-365 | `AT+BLEREAD`, `AT+BLENOTIFY` and `AT+BLENOTIFYOFF` are recognised despite the prefixed commands before them in the chain |
| AtCachedReferences.SetServiceRule | src/AT.cpp:286-310 | the UUID is always stored. Not connected: no reference changes and no stack call. Connected: the service reference becomes the lookup result. The characteristic reference is re-resolved exactly when the service is found and a characteristic UUID is stored, and kept otherwise. No `OK` is printed |
| AtCachedReferences.SetCharRule | src/AT.cpp:312-328 | the UUID is always stored. The characteristic reference becomes the lookup result exactly when a service reference is cached; otherwise nothing else changes and the stack is not called. No `OK` is printed |
| AtCachedReferences.InvalidReadRule | src/AT.cpp:337-338 | a comma-less `AT+BLEREAD=` prints only the invalid-parameters error: no `OK`, no call, no change |
| AtCachedReferences.ExplicitReadRule | src/AT.cpp:214-238 | the explicit read never changes the globals. It fails separately for not connected, service not found and characteristic not found. Otherwise it reads exactly the named characteristic. It always ends with `OK` |
| AtCachedReferences.CachedReadRule | src/AT.cpp:193-211 | the cached read never changes the globals. It calls nothing when not connected or when no reference is cached, and otherwise reads through the cached reference |
| AtCachedReferences.NotifyRule | src/AT.cpp:349-365 | without a cached characteristic, notify on and off print the pointer error and call nothing; with one, they (un)register on it. No `OK` and no change either way |
| AtCommandScope.QueriesKeepGlobals | src/AT.cpp:248-368 | `AT`, `AT+VERSION?`, discovery, both reads, the malformed read, notify on and off and unknown lines leave the globals as they were |
| AtCommandScope.RadioCommandsKeepReferences | src/AT.cpp:54-163 | the radio commands change at most the two radio flags and the client |
| AtCommandScope.SetCommandsKeepRadio | src/AT.cpp:286-328 | the set commands leave the radio flags and the client alone; set-service keeps the characteristic UUID, set-characteristic keeps the service UUID and reference |
| AtCommandScope.ReferencesChangeOnlyBySetCommands | src/AT.cpp:246-369 | the stored UUIDs and the cached references change only through the two set commands |
| AtCommandScope.RadioChangesOnlyByRadioCommands | src/AT.cpp:246-369 | the client changes only by connecting. `bleInitialized` changes only by start, stop, scan or connect. `bleAdvertising` changes only by stop and the advertising commands |
| AtCommandScope.ScanRule | src/AT.cpp:121-125 | scanning initialises the radio on demand (calling init only then) and changes nothing else |
| AtLinkLoss.LinkLostKeepsGlobals | src/AT.cpp:21-27 | losing the link keeps the radio flags, both UUIDs, both cached references and the lost client's table |
| AtLinkLoss.LinkTestingCommandsRefuse | src/AT.cpp:165-168 | after link loss, `AT+BLEDISCOVER`, `AT+BLEREAD` and `AT+BLEREAD=` answer `Not connected to any device.`, call nothing and change nothing (also src/AT.cpp:193-197, 214-218) |
| AtLinkLoss.SetServiceKeepsStaleReferences | src/AT.cpp:286-292 | after link loss, `AT+BLESETSERVICE=` stores the UUID, calls nothing, and keeps the references cached before the loss |
| AtLinkLoss.NotifyThroughStaleReference | src/AT.cpp:349-364 | `AT+BLENOTIFY` and `AT+BLENOTIFYOFF` do not test the link: after link loss they register through the reference cached before |
| AtLinkLoss.ReconnectReadsThroughOldReference | src/AT.cpp:146-163 | reconnecting after link loss creates a new client, keeps the cached references, and a cached read then reads through the reference from the old link |
| AtCommandScope.ConnectRule | src/AT.cpp:146-163 | connecting while connected does nothing. Otherwise the radio is initialised on demand and a new client is created; the link is up exactly when the peer accepts, and the UUIDs and references are kept |
| AtCommandScope.NonAtLineIsUnknown | src/AT.cpp:366-368 | a trimmed line not beginning with `AT` gets `ERROR: Unknown Command` alone, with no call and no change |
| AtCommandScope.ParseNonAt | src/AT.cpp:248-368 | no branch of the if-chain accepts a line that does not begin with `AT` |
| AtCommandScope.NotifyWithHandleIsUnknown | test_script.py:125-127 | the script's `AT+BLENOTIFY=1` is answered with `ERROR: Unknown Command` alone and changes nothing |
| AtCommandScope.ParseNotifyWithHandle | src/AT.cpp:349-368 | `AT+BLENOTIFY=1` falls through the chain to the unknown command |
| AtCommandScope.SetCommandsStoreParameterVerbatim | test_script.py:113-122 | the set commands store whatever trimmed text follows `=`, so `1,<uuid>` is stored as the UUID |
| AtCommandScope.StaleCharacteristicAfterFailedLookup | src/AT.cpp:292-306 | after a set-service names a missing service, the service reference is null, but the old characteristic reference is still the one `AT+BLEREAD` reads |
| LineAssembly.SplitPiecesHaveNoTerminator | src/AT.cpp:380-390 | the reference description of the assembler cuts the text at every `\n`/`\r`, and no piece holds a terminator |
| LineAssembly.SplitSnoc | src/AT.cpp:380-390 | one more character either opens a new, empty piece (a terminator) or extends the last piece |
| LineAssembly.NonEmpty | src/AT.cpp:383 | a piece is kept exactly when it is non-empty |
| LineAssembly.NonEmptyAppend | src/AT.cpp:383 | dropping the empty pieces keeps the order: it commutes with putting two runs of pieces end to end |
| LineAssembly.AssembleIsSplit | src/AT.cpp:380-390 | feeding characters one by one leaves, as buffer, the text after the last terminator. The lines dispatched are exactly the non-empty pieces between terminators, in order |
| LineAssembly.BufferHasNoTerminator | src/AT.cpp:380-390 | the input buffer never holds a terminator |
| Peripheral.FrameLength | src/peripheral.cpp:18-19 | a frame is `DATA_SIZE` = 80 bytes |
| Peripheral.FrameCounterRoundTrip | src/peripheral.cpp:53-56 | bytes 2..5 read big-endian give back the 32-bit counter |
| Peripheral.FrameDeterminesCounter | src/peripheral.cpp:53-56 | frames with different counters differ |
| Peripheral.FrameLayout | src/peripheral.cpp:51-64 | the header bytes are the ones found in the buffer. Bytes 2..5 hold the counter's bytes most significant first. Byte `i` is `i-6` for `6 <= i < 78`. Bytes 78 and 79 are `0xFE` |
| Peripheral.AdvanceConnectedCounts | src/peripheral.cpp:66-71 | after `k` sends with a client connected, the counter has moved on by `k` modulo 2^32 |
| Peripheral.PacketServer.constructor | src/peripheral.cpp:17-20 | the globals start zeroed: buffer of 80 zero bytes, counter 0, not connected |
| Peripheral.PacketServer.Setup | src/peripheral.cpp:84-85 | `setup` sets bytes 0 and 1 to `0xFF` and leaves the rest of the buffer |
| Peripheral.PacketServer.SendData | src/peripheral.cpp:51-72 | the buffer becomes the frame of the old counter around the untouched header, in both cases. When connected, that buffer is notified and the counter advances by one modulo 2^32; otherwise nothing is notified and the counter is unchanged |
| Peripheral.PacketServer.FillPayload | src/peripheral.cpp:59-61 | the loop writes `i-6` into every byte `i` with `6 <= i < 78` and leaves the header and footer bytes as they were |
| Peripheral.PacketServer.OnConnect | src/peripheral.cpp:24-27 | `onConnect` sets the connected flag and changes nothing else |
| Peripheral.PacketServer.OnDisconnect | src/peripheral.cpp:29-34 | `onDisconnect` clears the connected flag and changes nothing else |
| PythonText.Strip | test_script.py:43 | `strip()` yields a substring of the line with only whitespace outside it and none at its ends |
| PythonText.Split | test_script.py:49 | `split()` yields non-empty words free of whitespace |
| PythonText.SplitKeepsNonSpace | test_script.py:49 | the words of `split()`, put end to end, are exactly the non-space characters of the text |
| PythonText.SplitOfWord | test_script.py:49 | text without whitespace splits into itself alone, or nothing when empty |
| PythonText.SplitSkipsSpace | test_script.py:49 | leading whitespace does not change `split()` |
| PythonText.SplitCons | test_script.py:49 | a word followed by whitespace is the first word of `split()`, and the rest of the words are those of the text after the whitespace: words are the maximal non-space runs |
| PythonText.WordLengthAt | test_script.py:49 | the first word ends exactly at the first whitespace |
| PythonInt.HexDigitValue | test_script.py:56 | a hex digit's value is below 16, and below 10 exactly for decimal digits |
| PythonInt.ParseInt16 | test_script.py:56 | `int(s, 16)` succeeds only on text whose stripped form holds a hex digit |
| PythonInt.PairValue | test_script.py:55-56 | a two-digit token is worth less than `0x100` |
| PythonInt.HexValueAppend | test_script.py:55-56 | appending underscore-free digits shifts the value four bits per digit |
| PythonInt.ParseHexDigits | test_script.py:56 | `int(s, 16)` of a non-empty run of plain hex digits is their value |
| PythonInt.ThreePairs | test_script.py:55-56 | three two-digit hex tokens, joined and read by `int(..., 16)`, give the big-endian number they spell, below 2^24 |
| NotificationPattern.DigitRun | test_script.py:37 | `\d+` taken greedily: all digits, followed by a non-digit or the end |
| NotificationPattern.SpaceRun | test_script.py:37 | `\s*` taken greedily: all whitespace, followed by a non-space or the end |
| NotificationPattern.LineRest | test_script.py:37 | `.*` takes the text up to the first line feed |
| NotificationPattern.MatchAt | test_script.py:36-38 | a match starts with the literal prefix, captures a non-empty run of digits as client id, and captures a payload without line feeds |
| NotificationPattern.MatchOfShape | test_script.py:36-38 | every line of the form prefix, digits `d`, whitespace, `(hex):`, optional whitespace, payload `p` up to a line feed, matches at its start with groups `d` and `p` |
| NotificationPattern.ShapeOfMatch | test_script.py:36-38 | conversely, every match at the start of a line comes from such a decomposition of the line, with the match's groups as `d` and `p` |
| NotificationPattern.SearchFindsShape | test_script.py:44 | `search` on leading text without a capital `N` followed by a line of that form reports that line's client number and payload |
| NotificationPattern.FirstMatchIsLeftmost | test_script.py:44 | `search` reports the leftmost position where the pattern matches: the pattern matches there, and at no earlier position (nor anywhere, when none is reported) |
| NotificationPattern.Search | test_script.py:44-47 | a match found anywhere in the line has a non-empty all-digit client id and a payload without line feeds |
| NotificationPattern.MatchNeedsPrefix | test_script.py:36-38 | a match needs the prefix's capital `N` where it starts and its `f` of `from` 22 characters on |
| NotificationPattern.NoMatchWithoutPrefix | test_script.py:44 | text whose only `N` is its first character, and whose 23rd character is not `f`, is never matched |
| DropCounter.DropEmpty | test_script.py:49 | the filter keeps no empty token |
| DropCounter.DropEmptyKeepsWords | test_script.py:49 | on the output of `split()` the filter keeps every token |
| DropCounter.UnmatchedLineIgnored | test_script.py:44-45 | a line the pattern does not find leaves `client_stats` unchanged |
| DropCounter.MatchedLine | test_script.py:43-47 | a line the pattern finds (after `strip`) is handled by its two groups alone, and its client id is all decimal digits |
| DropCounter.ShortPayloadIgnored | test_script.py:49-52 | a match whose payload has fewer than six tokens leaves `client_stats` unchanged |
| DropCounter.BadSequenceIgnored | test_script.py:53-59 | a match whose tokens 3..5, joined, do not read as hex leaves `client_stats` unchanged |
| DropCounter.PacketRecorded | test_script.py:46-57 | any other match is a packet carrying that number under the decimal client id |
| DropCounter.TwoDigitTokensGive24Bits | test_script.py:49-56 | with two-digit tokens 3..5 the line is a packet whose number is their big-endian value, in `[0, 2^24)` |
| DropCounter.RecordUpdatesOneClient | test_script.py:61-85 | a first packet creates `{last_seq: seq, dropped: 0}`. A known client moves `last_seq` to `seq` (backward jumps and duplicates included) and adds `seq - (last_seq + 1)` only when positive. No other entry changes and none is removed |
| DropCounter.ApplyGrows | test_script.py:61-85 | one line never removes an entry or decreases a drop count |
| DropCounter.TrackAllGrows | test_script.py:41-92 | nor does any series of lines |
| DropCounter.IncreasingRunDrops | test_script.py:62-85 | from a client's first packet on, with strictly increasing numbers, the drop count is the span covered minus the packets received |
| DropCounter.DropMonitor.constructor | test_script.py:16 | `client_stats` starts empty |
| DropCounter.DropMonitor.ProcessLine | test_script.py:41-92 | `process_line` updates `client_stats` as `Track` says |
| DropCounter.DropMonitor.ProcessOutcome | test_script.py:61-85 | the in-place dictionary updates amount to `Apply` on the classified line |
| ScriptAgainstFirmware.FirmwareLineLetters | src/AT.cpp:40-47 | the firmware's notification line has its only capital `N` first and `(` where the script's pattern has the `f` of `from` |
| ScriptAgainstFirmware.FirmwareNotificationNeverCounted | test_script.py:36-45 | every notification line the firmware prints is classified as no match and leaves the drop table unchanged |

## Left out

- The enumeration lines of `scanBLEDevices` (src/AT.cpp:126-143) and
  `discoverServices` (src/AT.cpp:170-189) are printing over vendor result
  maps. Only their preconditions, the calls into the stack and the
  surrounding lines are modelled.
- The vendor BLE stack itself is left out. Initialisation, server creation,
  advertising, scanning, client creation and connection, lookups, reads and
  notification registration are entries of the call log. Their results
  come from the abstract `Link` and `Radio`.
- `BLEUUID` parsing and normalisation are left out. UUIDs are compared as
  the exact strings given, so a lookup succeeds only for the string as it
  appears in the peer's table.
- Cached references are modelled as the names they were looked up under.
  After a link loss (`LinkLost`) or a reconnect, the firmware's pointers
  still belong to the old client object. The model keeps the names, so a
  reference that survives a reconnect is read through the `Radio` under its
  name. A lookup through a cached service (`AT+BLESETCHAR=`) answers from
  the lost link's table only until the next `AT+BLECONNECT=`. After that it
  answers from the new client's table, or from the empty table when the
  connection failed. The firmware instead asks the old client's service
  object (src/AT.cpp:318-319). The following are not modelled:
  - what that old service object returns;
  - whether the stack clears its table on disconnect;
  - what a read through a pointer of a disconnected client returns;
  - dangling pointers and their undefined behaviour.
- The following are serial set-up, timing and concurrency, not logic, and
  are left out:
  - the firmware's `setup` (src/AT.cpp:371-376);
  - the peripheral's advertising configuration (src/peripheral.cpp:87-112);
  - its FreeRTOS timer (src/peripheral.cpp:75-77, 114-115);
  - the restart of advertising in `onDisconnect`, which is a stack call.
- The `onWrite` echo (src/peripheral.cpp:39-48) only prints.
- The test script's I/O and threading are left out: the serial port,
  `write_and_print`/`read_and_print`, `serial_thread`, `main`, argument
  parsing, sleeps, `stats_lock` and every `print`. `process_line`'s
  `port_name` parameter is used only for printing and is dropped.
- `\d` in the notification pattern and `int()` of the captured id are
  modelled for ASCII digits only. Python also accepts other Unicode decimal
  digits there.
- PythonInt.DecimalValue: accepts digit runs of any length. CPython 3.11
  and later raise `ValueError` from `int()` on more than 4300 digits, and
  the script's `int(match.group(1))` (test_script.py:46) sits outside its
  `try`. That exception, which would end `process_line`, is not modelled.
- `int(x, 16)` is modelled on the text the script can hand it. The digits
  and whitespace outside ASCII and the Unicode space set of `str.isspace`
  are not modelled.
- PythonInt.ParseInt16: its contract states only that success needs a hex
  digit in the stripped text. The function itself follows CPython's rules,
  and `ThreePairs` pins its value for the tokens the script is meant to see.
- The connection between the script's tokens 3..5 and the peripheral's
  bytes 2..5 is not claimed.
