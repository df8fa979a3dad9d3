/** MotorClient/ClientWindow.xaml.cs: the client window's command queue, its
    pending command list and its two output panes. The window's text boxes
    become parameters of the click handlers; float.TryParse becomes an
    `Option<real>` parameter and float-to-text formatting a function parameter;
    what the sender writes to the message stream is kept as a ghost log. */
module Client {

  import opened Strings
  import opened CommandViews
  import CommandServer

  datatype Option<T> = None | Some(value: T)

  /** The speed pane's text while measuring is off ("switched off"). */
  const SwitchedOff: string := "ISKLJUČENO"

  /** The labels of the two kinds of list rows. */
  const CwLabel: string := "Rotiraj CW"
  const CcwLabel: string := "Rotiraj CCW"

  /** The acceleration accepted by btn_setAccel_Click: negative values become 0
      and values above 10 become 10. */
  function Clamp(a: real): (acc: real)
    ensures 0.0 <= acc <= 10.0
    ensures 0.0 <= a <= 10.0 ==> acc == a
    ensures a < 0.0 ==> acc == 0.0
    ensures a > 10.0 ==> acc == 10.0
  {
    var acc := if a < 0.0 then 0.0 else a;
    if acc > 10.0 then 10.0 else acc
  }

  /** The value float.TryParse leaves in its out parameter: 0 when the text
      does not parse. */
  function ParsedOrZero(parsed: Option<real>): (x: real)
    ensures parsed.Some? ==> x == parsed.value
    ensures parsed.None? ==> x == 0.0
  {
    match parsed
    case Some(v) => v
    case None => 0.0
  }

  /** The line btn_cmd1_Click / btn_cmd2_Click queue: "<cmd> <speed> <duration>". */
  function RotateLine(cmd: string, speed: real, duration: real, fmt: real -> string): string
  {
    cmd + " " + fmt(speed) + " " + fmt(duration)
  }

  /** The line ProcessCommandsFromList queues for one row: "RCW " for a row
      labelled "Rotiraj CW" and "RCCW " for any other row, then the speed text,
      a space and the duration up to its first space. */
  function ItemCommand(v: CommandView): string
  {
    (if v.komanda == CwLabel then "RCW " else "RCCW ") + v.brzina + " " + TrajanjeVal(v)
  }

  /** The lines queued for a whole list, in list order. */
  function ItemCommands(vs: seq<CommandView>): (lines: seq<string>)
    ensures |lines| == |vs|
    ensures forall i :: 0 <= i < |vs| ==> lines[i] == ItemCommand(vs[i])
  {
    seq(|vs|, i requires 0 <= i < |vs| => ItemCommand(vs[i]))
  }

  /** A row added with the CW or CCW button turns back into the speed and the
      duration text the user typed, behind the matching command word. */
  lemma AddedRowCommand(speed: string, duration: string)
    ensures ItemCommand(CommandView(CwLabel, speed, duration + " ms"))
      == "RCW " + speed + " " + FirstField(duration, ' ')
    ensures ItemCommand(CommandView(CcwLabel, speed, duration + " ms"))
      == "RCCW " + speed + " " + FirstField(duration, ' ')
    ensures ' ' !in duration ==>
      ItemCommand(CommandView(CwLabel, speed, duration + " ms")) == "RCW " + speed + " " + duration
    ensures ' ' !in duration ==>
      ItemCommand(CommandView(CcwLabel, speed, duration + " ms")) == "RCCW " + speed + " " + duration
  {
    var cw := CommandView(CwLabel, speed, duration + " ms");
    var ccw := CommandView(CcwLabel, speed, duration + " ms");
    TrajanjeValRoundTrip(CwLabel, speed, duration);
    TrajanjeValRoundTrip(CcwLabel, speed, duration);
    assert |CcwLabel| != |CwLabel|;
    assert ItemCommand(cw) == "RCW " + speed + " " + TrajanjeVal(cw);
    assert ItemCommand(ccw) == "RCCW " + speed + " " + TrajanjeVal(ccw);
  }

  /** Six shapes of line the client queues are none of the three words
      MotorServer/Server.cs parses, so the server reads each of them as None:
      the list lines, both rotate buttons' lines, the acceleration line and the
      two speed-measurement switches. (The client's "quit" is the one line the
      server acts on.) */
  lemma ClientLinesParseToNone(v: CommandView, speed: real, duration: real, acc: real, fmt: real -> string)
    ensures CommandServer.ParseCommand(ItemCommand(v)) == CommandServer.None
    ensures CommandServer.ParseCommand(RotateLine("RCW", speed, duration, fmt)) == CommandServer.None
    ensures CommandServer.ParseCommand(RotateLine("RCCW", speed, duration, fmt)) == CommandServer.None
    ensures CommandServer.ParseCommand("ACC " + fmt(acc) + " 0") == CommandServer.None
    ensures CommandServer.ParseCommand("TSI") == CommandServer.None
    ensures CommandServer.ParseCommand("TSO") == CommandServer.None
  {
    assert ("ACC " + fmt(acc) + " 0")[0] == 'A';
    var rest := v.brzina + " " + TrajanjeVal(v);
    if v.komanda == CwLabel {
      assert ItemCommand(v) == "RCW " + rest;
    } else {
      assert ItemCommand(v) == "RCCW " + rest;
    }
    CommandServer.ClientRotateLinesParseToNone(rest);
    var args := fmt(speed) + " " + fmt(duration);
    assert RotateLine("RCW", speed, duration, fmt) == "RCW " + args;
    assert RotateLine("RCCW", speed, duration, fmt) == "RCCW " + args;
    CommandServer.ClientRotateLinesParseToNone(args);
  }

  /** The line the sender logs for each command it writes. */
  function SentLine(command: string): string
  {
    "<<CLIENT>>\tSent command \"" + command + "\" to server."
  }

  function SentLines(commands: seq<string>): (lines: seq<string>)
    ensures |lines| == |commands|
    ensures forall i :: 0 <= i < |commands| ==> lines[i] == SentLine(commands[i])
  {
    seq(|commands|, i requires 0 <= i < |commands| => SentLine(commands[i]))
  }

  /** One more command sent puts its line on top of the pane. */
  lemma SentLinesSnoc(commands: seq<string>, command: string, out: string)
    ensures Prepended(SentLines(commands + [command]), out)
      == SentLine(command) + "\n" + Prepended(SentLines(commands), out)
  {
    assert SentLines(commands + [command]) == SentLines(commands) + [SentLine(command)];
    NewestOnTop(SentLines(commands), SentLine(command), out);
  }

  /** The command pane after `lines` were added to it one by one, oldest first:
      each new line goes on top. */
  function Prepended(lines: seq<string>, out: string): string
    decreases |lines|
  {
    if |lines| == 0 then out
    else lines[|lines| - 1] + "\n" + Prepended(lines[..|lines| - 1], out)
  }

  /** Adding one batch of lines and then another is adding both in order. */
  lemma {:induction false} PrependedAppend(a: seq<string>, b: seq<string>, out: string)
    ensures Prepended(a + b, out) == Prepended(b, Prepended(a, out))
    decreases |b|
  {
    if |b| == 0 {
      assert a + b == a;
    } else {
      var b' := b[..|b| - 1];
      assert (a + b)[..|a + b| - 1] == a + b';
      PrependedAppend(a, b', out);
    }
  }

  /** Nothing already in the pane is lost: the old text stays at the bottom. */
  lemma {:induction false} PrependedKeepsOld(lines: seq<string>, out: string)
    ensures |out| <= |Prepended(lines, out)|
    ensures Prepended(lines, out)[|Prepended(lines, out)| - |out|..] == out
    decreases |lines|
  {
    if |lines| > 0 {
      PrependedKeepsOld(lines[..|lines| - 1], out);
    }
  }

  /** The newest line is on top. */
  lemma NewestOnTop(lines: seq<string>, line: string, out: string)
    ensures Prepended(lines + [line], out) == line + "\n" + Prepended(lines, out)
  {
    assert (lines + [line])[..|lines|] == lines;
  }

  /** `s` without its element at index `i`. */
  function RemoveAt<T>(s: seq<T>, i: int): (r: seq<T>)
    requires 0 <= i < |s|
    ensures |r| == |s| - 1
    ensures forall j :: 0 <= j < i ==> r[j] == s[j]
    ensures forall j :: i <= j < |r| ==> r[j] == s[j + 1]
    ensures multiset(r) + multiset{s[i]} == multiset(s)
  {
    assert s == s[..i] + [s[i]] + s[i + 1..];
    s[..i] + s[i + 1..]
  }

  /** The window's state: the outgoing command queue (cmdQueue), the pending
      rows (lv_komande.Items) and the selected row (-1 when none), the speed
      measurement flag, the two output panes, the acceleration text box, and
      the commands written to the message stream so far. */
  class ClientWindow {
    var cmdQueue: seq<string>
    var items: seq<CommandView>
    var selectedIndex: int
    var measureSpeed: bool
    var cmdOutput: string
    var spdOutput: string
    var accelerationText: string
    ghost var sent: seq<string>

    /** The selection is a row of the list, or none. */
    ghost predicate Valid()
      reads this
    {
      -1 <= selectedIndex < |items|
    }

    /** The constructor up to the connection: empty panes and queue, speed
        measurement off. `accelerationText` is the text box's initial text. */
    constructor (initialAcceleration: string)
      ensures Valid()
      ensures cmdQueue == [] && items == [] && selectedIndex == -1
      ensures !measureSpeed && cmdOutput == "" && spdOutput == SwitchedOff
      ensures accelerationText == initialAcceleration && sent == []
    {
      cmdQueue := [];
      items := [];
      selectedIndex := -1;
      measureSpeed := false;
      cmdOutput := "";
      spdOutput := SwitchedOff;
      accelerationText := initialAcceleration;
      sent := [];
    }

    /** Queue a command line at the back. */
    method SendCommand(cmd: string)
      modifies this`cmdQueue
      ensures cmdQueue == old(cmdQueue) + [cmd]
    {
      cmdQueue := cmdQueue + [cmd];
    }

    /** Put a line on top of the command pane. */
    method AddLineToCmdOutput(line: string)
      modifies this`cmdOutput
      ensures cmdOutput == line + "\n" + old(cmdOutput)
    {
      cmdOutput := line + "\n" + cmdOutput;
    }

    /** Replace the speed pane's text. */
    method AddLineToSpdOutput(line: string)
      modifies this`spdOutput
      ensures spdOutput == line
    {
      spdOutput := line;
    }

    /** One drain of the sender loop: the front command is taken off the queue,
        written, and logged, until the queue is empty. Commands are written in
        the order they were queued. */
    method SendCommandsFromQueue()
      modifies this`cmdQueue, this`sent, this`cmdOutput
      ensures cmdQueue == []
      ensures sent == old(sent) + old(cmdQueue)
      ensures cmdOutput == Prepended(SentLines(old(cmdQueue)), old(cmdOutput))
    {
      ghost var queue, sent0, out0 := cmdQueue, sent, cmdOutput;
      ghost var done: seq<string> := [];
      while |cmdQueue| > 0
        invariant queue == done + cmdQueue
        invariant sent == sent0 + done
        invariant cmdOutput == Prepended(SentLines(done), out0)
        decreases |cmdQueue|
      {
        var command := cmdQueue[0];
        cmdQueue := cmdQueue[1..];
        sent := sent + [command];
        AddLineToCmdOutput(SentLine(command));
        SentLinesSnoc(done, command, out0);
        assert done + [command] + cmdQueue == queue;
        done := done + [command];
      }
      assert done == queue;
    }

    /** The rotate-clockwise button: "RCW <speed> <duration>", a field that
        does not parse counting as 0. */
    method BtnCmd1Click(speed: Option<real>, duration: Option<real>, fmt: real -> string)
      modifies this`cmdQueue
      ensures cmdQueue == old(cmdQueue) + [RotateLine("RCW", ParsedOrZero(speed), ParsedOrZero(duration), fmt)]
    {
      var s := 0.0;
      if speed.Some? {
        s := speed.value;
      }
      var d := 0.0;
      if duration.Some? {
        d := duration.value;
      }
      SendCommand("RCW" + " " + fmt(s) + " " + fmt(d));
    }

    /** The rotate-counter-clockwise button: "RCCW <speed> <duration>", a field
        that does not parse counting as 0. */
    method BtnCmd2Click(speed: Option<real>, duration: Option<real>, fmt: real -> string)
      modifies this`cmdQueue
      ensures cmdQueue == old(cmdQueue) + [RotateLine("RCCW", ParsedOrZero(speed), ParsedOrZero(duration), fmt)]
    {
      var s := 0.0;
      if speed.Some? {
        s := speed.value;
      }
      var d := 0.0;
      if duration.Some? {
        d := duration.value;
      }
      SendCommand("RCCW" + " " + fmt(s) + " " + fmt(d));
    }

    /** Add a clockwise row; the duration text gets " ms" appended. */
    method BtnAddCwCmdClick(speedText: string, durationText: string)
      requires Valid()
      modifies this`items
      ensures Valid()
      ensures items == old(items) + [CommandView(CwLabel, speedText, durationText + " ms")]
    {
      items := items + [CommandView(CwLabel, speedText, durationText + " ms")];
    }

    /** Add a counter-clockwise row; the duration text gets " ms" appended. */
    method BtnAddCcwCmdClick(speedText: string, durationText: string)
      requires Valid()
      modifies this`items
      ensures Valid()
      ensures items == old(items) + [CommandView(CcwLabel, speedText, durationText + " ms")]
    {
      items := items + [CommandView(CcwLabel, speedText, durationText + " ms")];
    }

    /** The acceleration button: a value that parses is clamped to [0, 10],
        written back to the text box and queued as "ACC <acc> 0"; a value that
        does not parse queues nothing (the message box is not modelled). */
    method BtnSetAccelClick(parsed: Option<real>, fmt: real -> string)
      modifies this`cmdQueue, this`accelerationText
      ensures parsed.None? ==> cmdQueue == old(cmdQueue) && accelerationText == old(accelerationText)
      ensures parsed.Some? ==>
        accelerationText == fmt(Clamp(parsed.value)) &&
        cmdQueue == old(cmdQueue) + ["ACC " + fmt(Clamp(parsed.value)) + " 0"]
    {
      if parsed.Some? {
        var acc := parsed.value;
        if acc < 0.0 {
          acc := 0.0;
        }
        if acc > 10.0 {
          acc := 10.0;
        }
        accelerationText := fmt(acc);
        SendCommand("ACC " + fmt(acc) + " 0");
      }
    }

    /** Queue one line per row, in list order, then clear the list (which also
        clears the selection). */
    method ProcessCommandsFromList()
      modifies this`cmdQueue, this`items, this`selectedIndex
      ensures cmdQueue == old(cmdQueue) + ItemCommands(old(items))
      ensures items == [] && selectedIndex == -1
      ensures Valid()
    {
      var k := 0;
      while k < |items|
        invariant 0 <= k <= |items|
        invariant items == old(items)
        invariant cmdQueue == old(cmdQueue) + ItemCommands(items[..k])
      {
        SendCommand(ItemCommand(items[k]));
        assert ItemCommands(items[..k + 1]) == ItemCommands(items[..k]) + [ItemCommand(items[k])];
        k := k + 1;
      }
      assert items[..k] == items;
      items := [];
      selectedIndex := -1;
    }

    /** The user selects a row (-1: clears the selection). */
    method Select(i: int)
      requires Valid() && -1 <= i < |items|
      modifies this`selectedIndex
      ensures Valid() && selectedIndex == i
    {
      selectedIndex := i;
    }

    /** The remove button: nothing on an empty list; otherwise the selected row
        goes (and the selection is cleared), or the last row when none is
        selected. Exactly one row disappears. */
    method BtnRemoveCommandClick()
      requires Valid()
      modifies this`items, this`selectedIndex
      ensures Valid()
      ensures old(items) == [] ==> items == [] && selectedIndex == old(selectedIndex)
      ensures old(items) != [] ==> |items| == |old(items)| - 1 && selectedIndex == -1
      ensures old(items) != [] && old(selectedIndex) >= 0 ==> items == RemoveAt(old(items), old(selectedIndex))
      ensures old(items) != [] && old(selectedIndex) < 0 ==> items == RemoveAt(old(items), |old(items)| - 1)
    {
      if |items| == 0 {
        return;
      }
      if selectedIndex >= 0 {
        items := RemoveAt(items, selectedIndex);
        selectedIndex := -1;
      } else {
        items := RemoveAt(items, |items| - 1);
      }
    }

    /** Flip speed measurement; switching it off resets the speed pane. Two
        toggles restore the flag. */
    method ToggleSpeedMeasure()
      modifies this`measureSpeed, this`spdOutput
      ensures measureSpeed == !old(measureSpeed)
      ensures !measureSpeed ==> spdOutput == SwitchedOff
      ensures measureSpeed ==> spdOutput == old(spdOutput)
    {
      measureSpeed := !measureSpeed;
      if !measureSpeed {
        AddLineToSpdOutput(SwitchedOff);
      }
    }

    /** The measure-speed button: toggle, then tell the server: "TSI" when
        measuring is now on, "TSO" when it is now off. */
    method BtnMeasureSpeedClick()
      modifies this`measureSpeed, this`spdOutput, this`cmdQueue
      ensures measureSpeed == !old(measureSpeed)
      ensures cmdQueue == old(cmdQueue) + [if measureSpeed then "TSI" else "TSO"]
      ensures !measureSpeed ==> spdOutput == SwitchedOff
      ensures measureSpeed ==> spdOutput == old(spdOutput)
    {
      ToggleSpeedMeasure();
      if measureSpeed {
        SendCommand("TSI");
      } else {
        SendCommand("TSO");
      }
    }
  }
}
