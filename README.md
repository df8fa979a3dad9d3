# Motor server and client: a Dafny model

This project models the control logic of a small DC-motor system. A
Raspberry Pi ramps a motor's power up and down and samples its voltage,
current and speed. A server accepts text commands over TCP and runs them in
order. A desktop client builds those commands from a pending list and queues
them for sending.

The model has one module per source file, plus one shared helper module:

- `MotorControl` (MotorServerCpp/MotorController.hpp) is the ramp controller.
  - The globals `lastPowerSet`, `lastDirection`, `acceleration` and the 24-slot
    `powerSignal` buffer are the fields of a `Motor` object.
  - `generatePowerSignal` is proved to leave the exact pattern that the
    specification function `Pattern` describes. Positions are computed in
    exact real arithmetic.
  - `stopMotor` and `turnMotor` are loops that step the power by one per tick.
    They are proved against `StopLevel`/`RampLevel` and against a ghost trace
    of every drive-line event.
- `MotorMonitoring` (MotorServerCpp/MotorMonitor.hpp) covers the monitor.
  - The voltage and current ring buffers are `SampleBuffer` objects.
  - The copy-count-sort behind the "print sorted" routines is proved sorted,
    a permutation, and to count the zeros.
  - The two speed-measurement loops are proved against the edges they observe.
- `CommandServer` (MotorServer/Server.cs) covers the server.
  - `ParseCommand` is modelled, along with the decoding of a 1024-byte read up
    to its first NUL.
  - Reads whose first byte is 0 are skipped.
  - The FIFO task queue is drained by the execute loop. Its responses and
    motor calls are logged in order.
- `CommandViews` (MotorServer/CommandView.cs) is a pending-list row and its
  `TrajanjeVal` getter.
- `Client` (MotorClient/ClientWindow.xaml.cs) is the client window.
  - It covers the command queue and the sender that drains it, and the
    pending list with its add, send-all and remove buttons.
  - It covers acceleration clamping and the speed-measurement toggle.
  - It covers the two output panes.
- `Strings` is `Split(sep)[0]`, which both the server and the list row use.

Time is not modelled. Each deadline loop (`millis() - start < limit`) takes a
budget instead: the number of loop passes that fit before the deadline, given
as a `nat` parameter. `digitalWrite` and each hold of a power level become
events in a ghost trace. Sensor readings, magnet edges, socket reads and
clock readings are parameters. Float parsing in the client is an
`Option<real>` parameter, and float formatting is a `real -> string`
parameter.

Where the code and its documentation disagree, the model follows the code:

- `turnMotor` is documented as taking a speed "fixed to [0.0 - 12.0]", but it
  does not clamp `desiredSpeed` (MotorController.hpp:150-171). The model ramps
  toward whatever it is given. Only `generatePowerSignal` clamps, to 24.
- `setupGPIO` clears only slots 0..11 of `powerSignal` (MotorController.hpp:48-49).
  All 24 slots are off after the first setup only because the global array
  starts zero-filled; the model's constructor gives that all-off buffer.
- `stopMotor` returns at once when `lastPowerSet` is 0 and writes nothing,
  so the direction line is not driven low on that path.
- `printSortedCurrent` counts zeros up to `V_size`, not `I_size`. The two are
  equal, so the count covers the whole current buffer.
- The client's command lines are the list lines, `RCW …` and `RCCW …` from the
  two rotate buttons, `ACC … 0`, `TSI` and `TSO`. The server in
  MotorServer/Server.cs only knows `komanda 1`, `komanda 2` and `quit`, so it
  parses each of these six shapes as `None` (`Client.ClientLinesParseToNone`).
  The one client line the server acts on is `quit`, which `DisconnectFromServer`
  and `QuitServer` send (MotorClient/ClientWindow.xaml.cs:91, :109); the server
  parses it as `Quit`.

## Model

| member | source | states |
|---|---|---|
| `MotorControl.Round` | MotorServerCpp/MotorController.hpp:81 | `std::round` of a non-negative position lies within half a slot of it |
| `MotorControl.PassBound` | MotorServerCpp/MotorController.hpp:80 | in exact arithmetic, the loop `while (s < maxSpeed)` makes exactly `speed` passes: pass k runs iff k < speed |
| `MotorControl.SlotAtInRange` | MotorServerCpp/MotorController.hpp:81-82 | in exact arithmetic, every slot the loop writes, `round(k * step)`, is inside the 24-slot buffer |
| `MotorControl.SlotAtIncreasing` | MotorServerCpp/MotorController.hpp:78-83 | consecutive passes hit strictly increasing slots, because the step is at least one slot |
| `MotorControl.SlotsUpToShape` | MotorServerCpp/MotorController.hpp:80-84 | the first n passes switch on n distinct slots, none beyond the last one written |
| `MotorControl.PatternOffForNonPositive` | MotorServerCpp/MotorController.hpp:72-74 | for speed <= 0 every slot is off |
| `MotorControl.PatternOnSlots` | MotorServerCpp/MotorController.hpp:66-84 | for speed > 0, slot 0 is on and exactly min(speed, 24) slots are on, all inside the buffer, so the power is spread evenly |
| `MotorControl.PatternClamped` | MotorServerCpp/MotorController.hpp:75 | a speed above 24 gives the same pattern as 24 |
| `MotorControl.FullPowerAllOn` | MotorServerCpp/MotorController.hpp:75-84 | at full power every slot is on |
| `MotorControl.Toward` | MotorServerCpp/MotorController.hpp:158-161 | one ramp tick moves the power one step toward the target and leaves it there once reached |
| `MotorControl.RampLevelClosedForm` | MotorServerCpp/MotorController.hpp:157-161 | after n ticks the power is the target if n covers the gap, else the start moved n steps toward the target |
| `MotorControl.RampHoldsShape` | MotorServerCpp/MotorController.hpp:157-165 | every held level lies between start and target, consecutive holds differ by at most one, and once the target is held it stays held |
| `MotorControl.RampReachesTarget` | MotorServerCpp/MotorController.hpp:157-161 | a ramp with at least as many ticks as the gap ends at the target |
| `MotorControl.StopIsRampToZero` | MotorServerCpp/MotorController.hpp:130-137 | the stop loop is a ramp toward zero cut short when zero is reached: same levels, same holds |
| `MotorControl.StopLevelBounds` | MotorServerCpp/MotorController.hpp:130-133 | stopping never goes below zero or above the start, and reaches zero iff the budget covers one tick per step |
| `MotorControl.StopTraceEndsAtZero` | MotorServerCpp/MotorController.hpp:124-142 | a stop from positive power with enough budget holds zero last, then drives the line low |
| `MotorControl.QuickChangeAvoidsZero` | MotorServerCpp/MotorController.hpp:152-161 | with quickChange, a ramp between two positive powers never holds zero |
| `MotorControl.TruncateToInt` | MotorServerCpp/MotorController.hpp:178 | `static_cast<int>` of a float truncates toward zero |
| `MotorControl.Motor.constructor` | MotorServerCpp/MotorController.hpp:48-52 | setup leaves power 0, direction clockwise, acceleration 1, all slots off |
| `MotorControl.Motor.GeneratePowerSignal` | MotorServerCpp/MotorController.hpp:69-85 | the buffer ends up holding exactly `Pattern(speed)` |
| `MotorControl.Motor.AccelerateMotor` | MotorServerCpp/MotorController.hpp:107-121 | one tick regenerates the pattern of `speed` and records one hold of it on the pin |
| `MotorControl.Motor.StopMotor` | MotorServerCpp/MotorController.hpp:124-142 | the power drops one per tick to `StopLevel`; the trace gains those holds and a final LOW, or nothing at all from power 0 |
| `MotorControl.Motor.RampDown` | MotorServerCpp/MotorController.hpp:130-137 | the power ends at `StopLevel` of the start and the tick budget, and the trace gains exactly the `StopHolds` of those ticks |
| `MotorControl.Motor.TurnMotor` | MotorServerCpp/MotorController.hpp:150-171 | a reversal without quickChange stops first; then the power ramps toward the target, the direction is recorded and its line driven low; the trace is exactly those events |
| `MotorControl.Motor.Ramp` | MotorServerCpp/MotorController.hpp:155-165 | the power ends at `RampLevel` of the start, target and tick budget and the trace gains exactly the `RampHolds` of those ticks, in the given direction |
| `MotorControl.Motor.TurnCW` | MotorServerCpp/MotorController.hpp:174-176 | turnMotor on pin 17 |
| `MotorControl.Motor.TurnCCW` | MotorServerCpp/MotorController.hpp:182-184 | turnMotor on pin 27 |
| `MotorControl.Motor.TurnCWFromFloat` | MotorServerCpp/MotorController.hpp:177-179 | the float speed is truncated, then turnCW |
| `MotorControl.Motor.TurnCCWFromFloat` | MotorServerCpp/MotorController.hpp:185-187 | the float speed is truncated, then turnCCW |
| `MotorMonitoring.SampleBuffer.constructor` | MotorServerCpp/MotorMonitor.hpp:14-20 | a buffer starts zero-filled with its index at 0 |
| `MotorMonitoring.SampleBuffer.Record` | MotorServerCpp/MotorMonitor.hpp:45-47 | the index wraps to 0 at capacity, the sample goes there, the index advances, and no other slot changes |
| `MotorMonitoring.Monitor.constructor` | MotorServerCpp/MotorMonitor.hpp:14-22 | two distinct zero-filled buffers of 10000 samples and a clear edge flag |
| `MotorMonitoring.Monitor.GetLoadVoltage` | MotorServerCpp/MotorMonitor.hpp:42-50 | the reading is stored at the wrapped index of the voltage buffer and returned |
| `MotorMonitoring.Monitor.GetLoadCurrent` | MotorServerCpp/MotorMonitor.hpp:61-69 | the reading is stored at the wrapped index of the current buffer and returned |
| `MotorMonitoring.Swap` | MotorServerCpp/MotorMonitor.hpp:91-93 | the exchange swaps two entries and keeps the contents |
| `MotorMonitoring.PlaceLargest` | MotorServerCpp/MotorMonitor.hpp:89-95 | the inner loop puts a maximum of the rest at position i, leaves the ordered prefix alone and keeps the contents |
| `MotorMonitoring.SortDescending` | MotorServerCpp/MotorMonitor.hpp:88-96 | the nested loop leaves the array non-increasing and a permutation of its input |
| `MotorMonitoring.SortedSnapshot` | MotorServerCpp/MotorMonitor.hpp:80-96 | the copy is sorted non-increasing, is a permutation of the buffer, and the zero count is the number of zeros in the counted prefix |
| `MotorMonitoring.CountZerosIsMultiplicity` | MotorServerCpp/MotorMonitor.hpp:86 | the zero count is the multiplicity of 0, so sorting does not change it |
| `MotorMonitoring.Monitor.PrintSortedVoltage` | MotorServerCpp/MotorMonitor.hpp:80-102 | sorted copy of the voltage buffer and its zero count, which equals the number of zeros in the sorted copy |
| `MotorMonitoring.Monitor.PrintSortedCurrent` | MotorServerCpp/MotorMonitor.hpp:103-125 | the same for the current buffer, counting to V_size (= I_size) |
| `MotorMonitoring.Monitor.MeasureSpeedWindow` | MotorServerCpp/MotorMonitor.hpp:129-145 | one window counts the polls that find the flag set and leaves the flag clear |
| `MotorMonitoring.HitsPerWindow` | MotorServerCpp/MotorMonitor.hpp:131-140 | each edge counts once, a flag already pending adds one unless it merges with an edge, and hits never exceed polls |
| `MotorMonitoring.Monitor.MeasureSpeed2` | MotorServerCpp/MotorMonitor.hpp:147-164 | lastHit moves to the poll time exactly at the polls that see the flag; it never decreases and never precedes the start |
| `MotorMonitoring.Monitor.Poll` | MotorServerCpp/MotorMonitor.hpp:152-157 | a poll takes its own time as lastHit exactly when the flag was set before it or an edge arrived, and always leaves the flag clear |
| `CommandServer.CodeIsEnumValue` | MotorServer/Server.cs:246-249 | the enum values are 0..3, one per command |
| `CommandServer.ParseCommand` | MotorServer/Server.cs:169-181 | RotateCW iff "komanda 1", RotateCCW iff "komanda 2", Quit iff "quit", None for everything else |
| `CommandServer.ClientRotateLinesParseToNone` | MotorServer/Server.cs:169-181 | any line starting "RCW " or "RCCW " parses to None |
| `CommandServer.DecodeNulIffZero` | MotorServer/Server.cs:90 | ASCII decoding keeps the length and gives NUL exactly at the zero bytes |
| `CommandServer.ReadBuffer` | MotorServer/Server.cs:82-86 | the buffer after a read is always 1024 bytes |
| `CommandServer.ReceivedTextIgnoresPadding` | MotorServer/Server.cs:82-90 | the zero padding after the bytes read never reaches the received text |
| `CommandServer.ReadCommand` | MotorServer/Server.cs:86-94 | a read is skipped iff it is empty or starts with byte 0; otherwise its text up to the first NUL is parsed |
| `CommandServer.ResponsesPerCommand` | MotorServer/Server.cs:116-153 | a rotate command writes exactly a start and a completion response, None writes "No command sent.", Quit writes nothing |
| `CommandServer.ExecutionOfAppend` | MotorServer/Server.cs:113-156 | running a queue is running its front part and then its back part, so execution is in queue order |
| `CommandServer.Server.constructor` | MotorServer/Server.cs:18-19 | no client and an empty task queue |
| `CommandServer.Server.Connect` | MotorServer/Server.cs:48-56 | an accepted client becomes the current one |
| `CommandServer.Server.ReceiveRead` | MotorServer/Server.cs:79-100 | a failed read drops the client; otherwise at most one parsed command joins the back of the queue |
| `CommandServer.Server.ListenForCommands` | MotorServer/Server.cs:73-105 | the queue gains the commands of all reads up to the first failure, and the client stays iff no read failed |
| `CommandServer.Server.Handle` | MotorServer/Server.cs:115-154 | one command's responses and motor call are logged in order; Quit drops the client |
| `CommandServer.Server.ExecutePending` | MotorServer/Server.cs:106-159 | the queue empties front first, the log gains the execution of the whole old queue in order, and the client stays iff no Quit was queued |
| `Strings.FirstField` | MotorServer/CommandView.cs:14 | `Split(sep)[0]` is a separator-free prefix followed by a separator or the end |
| `Strings.FirstFieldUnique` | MotorServer/CommandView.cs:14 | only one prefix has those properties |
| `Strings.FirstFieldIgnoresTail` | MotorServer/CommandView.cs:14 | text after a separator does not change the first field |
| `Strings.WholeWhenNoSeparator` | MotorServer/CommandView.cs:14 | a string without the separator is its own first field |
| `CommandViews.TrajanjeVal` | MotorServer/CommandView.cs:14 | the duration text up to its first space: space-free, a prefix, followed by a space if shorter |
| `CommandViews.TrajanjeValRoundTrip` | MotorClient/ClientWindow.xaml.cs:335 | a duration stored with " ms" appended gives back its first field, and a space-free duration comes back whole |
| `Client.Clamp` | MotorClient/ClientWindow.xaml.cs:349-350 | the acceleration is in [0, 10], and values already in range are unchanged |
| `Client.ParsedOrZero` | MotorClient/ClientWindow.xaml.cs:262-265 | a field that does not parse counts as 0 |
| `Client.ItemCommands` | MotorClient/ClientWindow.xaml.cs:366-378 | one line per row, in row order |
| `Client.AddedRowCommand` | MotorClient/ClientWindow.xaml.cs:366-376 | a row added with the CW/CCW button yields "RCW"/"RCCW", the typed speed and the typed duration |
| `Client.ClientLinesParseToNone` | MotorClient/ClientWindow.xaml.cs:258-358 | six line shapes the client queues parse to None on the server: the list lines (CW and CCW rows), both rotate buttons' lines, "ACC acc 0", "TSI" and "TSO"; only the client's "quit" is acted on |
| `Client.SentLines` | MotorClient/ClientWindow.xaml.cs:147 | one log line per command sent, in order |
| `Client.PrependedAppend` | MotorClient/ClientWindow.xaml.cs:286-290 | adding two batches of lines to the pane is adding them all in order |
| `Client.PrependedKeepsOld` | MotorClient/ClientWindow.xaml.cs:286-290 | the old pane text stays intact at the bottom |
| `Client.NewestOnTop` | MotorClient/ClientWindow.xaml.cs:288 | the newest line goes on top of the pane |
| `Client.RemoveAt` | MotorClient/ClientWindow.xaml.cs:387 | removing at an index shortens the list by one, shifts the later rows down and keeps the rest |
| `Client.ClientWindow.constructor` | MotorClient/ClientWindow.xaml.cs:40-49 | empty queue and panes, speed pane "ISKLJUČENO", measurement off |
| `Client.ClientWindow.SendCommand` | MotorClient/ClientWindow.xaml.cs:101-104 | the command joins the back of the queue |
| `Client.ClientWindow.AddLineToCmdOutput` | MotorClient/ClientWindow.xaml.cs:286-290 | the line is put on top of the command pane |
| `Client.ClientWindow.AddLineToSpdOutput` | MotorClient/ClientWindow.xaml.cs:296-300 | the speed pane is replaced by the line |
| `Client.ClientWindow.SendCommandsFromQueue` | MotorClient/ClientWindow.xaml.cs:127-159 | the queue is sent front first, so the sent log gains the old queue in order and the pane gains one line per command |
| `Client.ClientWindow.BtnCmd1Click` | MotorClient/ClientWindow.xaml.cs:258-267 | queues "RCW speed duration", with unparsable fields as 0 |
| `Client.ClientWindow.BtnCmd2Click` | MotorClient/ClientWindow.xaml.cs:268-277 | queues "RCCW speed duration", with unparsable fields as 0 |
| `Client.ClientWindow.BtnAddCwCmdClick` | MotorClient/ClientWindow.xaml.cs:333-336 | appends a "Rotiraj CW" row whose duration ends in " ms" |
| `Client.ClientWindow.BtnAddCcwCmdClick` | MotorClient/ClientWindow.xaml.cs:338-341 | appends a "Rotiraj CCW" row whose duration ends in " ms" |
| `Client.ClientWindow.BtnSetAccelClick` | MotorClient/ClientWindow.xaml.cs:343-358 | a parsed value is clamped, written back and queued as "ACC acc 0"; an unparsable value changes nothing |
| `Client.ClientWindow.ProcessCommandsFromList` | MotorClient/ClientWindow.xaml.cs:364-380 | the queue gains one line per row in row order, then the list and selection are cleared |
| `Client.ClientWindow.Select` | MotorClient/ClientWindow.xaml.cs:385-388 | the selection that the remove button consults is a row or none |
| `Client.ClientWindow.BtnRemoveCommandClick` | MotorClient/ClientWindow.xaml.cs:382-394 | an empty list is unchanged; otherwise the selected row, or the last row, goes and the length drops by exactly one |
| `Client.ClientWindow.ToggleSpeedMeasure` | MotorClient/ClientWindow.xaml.cs:314-320 | the flag flips, so two toggles restore it; switching off resets the speed pane |
| `Client.ClientWindow.BtnMeasureSpeedClick` | MotorClient/ClientWindow.xaml.cs:306-313 | toggles, then queues "TSI" when now on and "TSO" when now off |

## Left out

- Wall-clock time. `millis()`, `delay()`, the tick length and the per-tick hold loops `powerMotorSignal`, `powerMotorPWM`, `accelerateMotorSignal` and `accelerateMotorPWM` are not modelled. A deadline loop takes an iteration budget instead. `acceleration` only lengthens a tick in wall-clock time, so no modelled quantity depends on it.
- MotorControl.Motor.TurnMotor: the stop and the ramp take two independent budgets. In the source both share one deadline that starts before the stop; the model does not tie the two together.
- MotorControl.Motor.GeneratePowerSignal: positions are exact reals, so the 32-bit float accumulation of `s += step` is not modelled. The 24 slots inside the buffer still come out as `Pattern(speed)` at every speed, but the out-of-bounds write described next is not modelled.
- MotorControl.PassBound: holds in exact arithmetic only. With 32-bit floats, `s` after `speed` additions is just below 24 (for example 23.999998) at speeds 9, 10, 13, 14, 19, 21 and 23. The loop then makes a (speed+1)-th pass.
- MotorControl.SlotAtInRange: holds in exact arithmetic only. The extra float pass at speeds 9, 10, 13, 14, 19, 21 and 23 rounds `s` to 24 and writes `powerSignal[24]`, one slot past the 24-slot array. That is undefined behaviour in the source and is not modelled.
- MotorControl.Motor.TurnCWFromFloat: the float speed is an exact real. NaN, the infinities and values outside the `int` range, for which `static_cast<int>` is undefined, are not modelled.
- MotorControl.Motor.TurnCCWFromFloat: the same as TurnCWFromFloat; NaN, infinities and out-of-range values are not modelled.
- GPIO setup is not modelled: `setupGPIO`'s `wiringPiSetupGpio`, `pinMode` and `wiringPiISR`, and the interrupt itself. The magnet edges arrive as an input sequence, and the measurement loops run as finite polls.
- Debug printing (`std::cerr`, `Console.WriteLine`) is not modelled. That includes the printout of the top sorted samples, which prints four values under a "TOP 3" heading.
- The RPM formulas in `measureSpeed` and `measureSpeed2` are float arithmetic and are not modelled. So is the `unsigned long` wrap of `millis()`: clock readings are unbounded naturals.
- MotorMonitoring.Monitor.GetLoadVoltage: samples are integers, not floats. The INA219 register reads behind the readings are hardware I/O, and `getAvgVoltage`/`getAvgCurrent` are float averages.
- The server's sockets are not modelled: accepting, the stream writes, the `Task.Delay` pauses and the concurrent loops. The loops run one after the other.
- CommandServer.Server.Handle: every response write and every motor call is taken to succeed. In the source `ExecuteLoop` (MotorServer/Server.cs:106-159) has no exception handling and is started without being awaited. A failing `WriteAsync` ends the loop before the remaining responses are written and before the command is removed. So does `MotorFunction1`: its `Process.Start` is given a directory path with `UseShellExecute` off (Server.cs:191-193, :211-214), so as written it always throws. Every RotateCW therefore ends `ExecuteLoop` right after "Starting command 1", without "Command 1 completed", and no later command runs. The model has no such outcome.
- CommandServer.Server.ExecutePending: every command is taken to run to completion. In the source a failure while handling a command ends `ExecuteLoop` for good, with that command still at the head of the queue (its `RemoveAt(0)` at Server.cs:155 is never reached) and no later command run. `taskQueue == []` and the whole-queue log hold only when nothing fails.
- CommandServer.Server.ReceiveRead: only a read that fails or returns bytes is modelled; what a read can return is a parameter.
- Only `MotorFunction1` calls `CallPythonScript`, which starts a foreign process; `MotorFunction2` only writes two console lines around a 2-second delay (Server.cs:236-242). Both appear only as a `RunMotorFunction(n)` log entry.
- The timestamps in the server's responses are left out: a response is a tag.
- Client.ClientWindow.AddLineToCmdOutput: the `DateTime.Now` prefix of each line is left out.
- The client's sockets are not modelled: connecting, `RecieveMessages`, `RecieveSpeed`, `ListenToServer`, `QuitServer` and `DisconnectFromServer`'s close. `SendCommandsFromQueue` drains the queue once, and its exception path is not modelled.
- Client.ClientWindow.SendCommandsFromQueue: every write is taken to succeed. In the source each command leaves the queue before it is written (ClientWindow.xaml.cs:141-145), so a failed write loses that command and adds no pane line. `sent == old(sent) + old(cmdQueue)` and the pane contract hold only when every write succeeds.
- Client.ClientWindow.BtnSetAccelClick: float parsing and formatting are parameters. A parsed "NaN" fails both comparisons in the source and is sent unclamped; the model's reals have no NaN.
- WPF presentation is not modelled: labels, colours, message boxes and the refresh of the panes' controls.
- The parameterless `CommandView()` constructor leaves every field null and has no caller among the modelled operations.
