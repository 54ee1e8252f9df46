/** The test script reads the serial output of the AT firmware. The line
    the firmware prints for a notification (AT.cpp, `notifyCallback`) has
    no `from client <id>` part, so the script's pattern never matches it
    and no such line ever reaches the drop table. */
module ScriptAgainstFirmware {

  import opened Hex
  import opened PythonText
  import opened NotificationPattern
  import opened DropCounter
  import AtCommands

  const FirmwareLead: string := "Notification received (hex): "

  lemma FirmwareLeadLetters()
    ensures |FirmwareLead| == 29 && FirmwareLead[0] == 'N' && FirmwareLead[22] == '('
    ensures forall k :: 0 < k < |FirmwareLead| ==> FirmwareLead[k] != 'N'
  {
  }

  /** The only capital `N` of the line is its first character, and the
      character where the script's prefix has the `f` of `from` is `(`. */
  lemma FirmwareLineLetters(value: seq<uint8>)
    ensures |AtCommands.NotificationLine(value)| > 22
    ensures AtCommands.NotificationLine(value)[0] == 'N' && AtCommands.NotificationLine(value)[22] == '('
    ensures forall k :: 0 < k < |AtCommands.NotificationLine(value)| ==> AtCommands.NotificationLine(value)[k] != 'N'
  {
    var line := AtCommands.NotificationLine(value);
    assert line == FirmwareLead + HexText(value);
    FirmwareLeadLetters();
    HexTextAlphabet(value);
    forall k | 0 < k < |line|
      ensures line[k] != 'N'
    {
      if k >= |FirmwareLead| {
        assert line[k] == HexText(value)[k - |FirmwareLead|];
      }
    }
  }

  /** `strip` of a text that starts with a non-space keeps its start. */
  lemma StripKeepsStart(s: string)
    requires s != [] && !IsPySpace(s[0])
    ensures Strip(s) == s[..|Strip(s)|]
  {
    var t := Strip(s);
    var i, j :| 0 <= i <= j <= |s| && t == s[i..j] && forall k :: 0 <= k < i ==> IsPySpace(s[k]);
    assert i == 0;
  }

  /** The firmware's notification line is classified as not a notification,
      whatever bytes it carries, and leaves the drop table as it was. */
  lemma FirmwareNotificationNeverCounted(value: seq<uint8>, table: Table)
    ensures Classify(AtCommands.NotificationLine(value)) == NoMatch
    ensures Track(table, AtCommands.NotificationLine(value)) == table
  {
    var line := AtCommands.NotificationLine(value);
    FirmwareLineLetters(value);
    StripKeepsStart(line);
    var t := Strip(line);
    assert forall k :: 0 <= k < |t| ==> t[k] == line[k];
    NoMatchWithoutPrefix(t);
  }
}
